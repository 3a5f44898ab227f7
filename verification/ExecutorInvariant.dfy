/** What holds in every state of every run of the executor. */
module ExecutorInvariant {
  import opened Common
  import opened Executor

  // ------------------------------------------------------------------ runs

  ghost predicate EnabledRun(s: State, run: seq<Step>)
    decreases |run|
  {
    run == [] || (Enabled(s, run[0]) && EnabledRun(Next(s, run[0]), run[1..]))
  }

  ghost function Run(s: State, run: seq<Step>): State
    requires EnabledRun(s, run)
    decreases |run|
  {
    if run == [] then s else Run(Next(s, run[0]), run[1..])
  }

  /** A fresh deployment: nothing queued, nothing running. */
  ghost predicate Init(s: State) {
    s.limit >= 1 && s == State(s.limit, false, map[], map[], map[], map[], s.limit, 0, map[], {}, {}, map[])
  }

  // ------------------------------------------------------------------ the invariant

  function Slots(tasks: map<Id, Task>): set<Id> { set t | t in tasks && HoldsSlot(tasks[t].phase) }
  function Pipers(tasks: map<Id, Task>): set<Id> { set t | t in tasks && tasks[t].phase.Piping? }

  function SucceededOf(jobs: map<Id, Job>, org: Id): set<Id> {
    set j | j in jobs && jobs[j].org == org && jobs[j].status.Succeeded?
  }

  predicate HasClaimed(p: Phase) { Owns(p) || p == Crashed(true) }

  ghost predicate LocksOk(tasks: map<Id, Task>, locks: map<Id, Id>) {
    && (forall o :: o in locks ==> locks[o] in tasks && HoldsLock(tasks[locks[o]].phase) && tasks[locks[o]].org == o)
    && (forall t :: t in tasks && HoldsLock(tasks[t].phase) ==> tasks[t].org in locks && locks[tasks[t].org] == t)
  }

  ghost predicate SlotsOk(s: State) {
    && s.limit >= 1
    && s.free == s.limit - |Slots(s.tasks)| && s.free >= 0
    && s.runningNow == |Pipers(s.tasks)|
  }

  /** The registry marks an organization as in use exactly while one of its pipelines runs. */
  ghost predicate InUseOk(s: State) {
    && (forall o :: 0 <= Uses(s.inUse, o) <= 1)
    && (forall t :: t in s.tasks && s.tasks[t].phase.Piping? ==> Uses(s.inUse, s.tasks[t].org) == 1)
    && (forall o :: Uses(s.inUse, o) == 1 ==>
        o in s.locks && s.locks[o] in s.tasks && s.tasks[s.locks[o]].phase.Piping?)
  }

  ghost predicate TasksOk(s: State) {
    && (!s.up ==> s.tasks == map[])
    && (forall t :: t in s.tasks ==> s.tasks[t].job in s.jobs && s.jobs[s.tasks[t].job].org == s.tasks[t].org)
  }

  ghost predicate ClaimsOk(tasks: map<Id, Task>, jobs: map<Id, Job>) {
    && (forall t :: t in tasks && HasClaimed(tasks[t].phase) ==>
        tasks[t].job in jobs && !jobs[tasks[t].job].status.Queued?)
    && (forall t, u :: t in tasks && u in tasks && t != u && HasClaimed(tasks[t].phase) && HasClaimed(tasks[u].phase)
          ==> tasks[t].job != tasks[u].job)
    && (forall t :: t in tasks && Owns(tasks[t].phase) ==>
          tasks[t].job in jobs && (jobs[tasks[t].job].status.Running? || jobs[tasks[t].job].status.Failed?))
  }

  /** At most one start, and none for a job that is queued or cancelled. */
  predicate StartOk(s: State, j: Id) {
    && Count(s.starts, j) <= 1
    && (Count(s.starts, j) == 1 ==> j in s.jobs && !s.jobs[j].status.Queued? && !s.jobs[j].status.Cancelled?)
  }

  ghost predicate StartsOk(s: State) {
    && (forall j :: StartOk(s, j))
    && (forall t :: t in s.tasks && s.tasks[t].phase.Claimed? ==> Count(s.starts, s.tasks[t].job) == 0)
  }

  ghost predicate ProgressOk(s: State) {
    && (forall j :: j in s.jobs ==> 0 <= s.jobs[j].progress <= 100)
    && (forall j :: j in s.jobs && s.jobs[j].status.Queued? ==> s.jobs[j].progress == 0)
    && (forall j, p :: (j, p) in s.late ==> 0 <= p <= 100)
  }

  ghost predicate UsageOk(s: State) { forall o :: Count(s.usage, o) == |SucceededOf(s.jobs, o)| }

  ghost predicate Inv(s: State) {
    && LocksOk(s.tasks, s.locks) && SlotsOk(s) && InUseOk(s) && TasksOk(s) && ClaimsOk(s.tasks, s.jobs)
    && StartsOk(s) && ProgressOk(s) && UsageOk(s)
  }

  lemma InitInv(s: State)
    requires Init(s)
    ensures Inv(s)
  {
    assert Slots(s.tasks) == {} && Pipers(s.tasks) == {};
    forall o ensures SucceededOf(s.jobs, o) == {} {}
  }

  // ------------------------------------------------------------------ locks

  lemma LocksRephased(tasks: map<Id, Task>, locks: map<Id, Id>, t: Id, p: Phase)
    requires LocksOk(tasks, locks) && t in tasks && HoldsLock(p) == HoldsLock(tasks[t].phase)
    ensures LocksOk(tasks[t := tasks[t].(phase := p)], locks)
  {}

  lemma LocksReleased(tasks: map<Id, Task>, locks: map<Id, Id>, t: Id, p: Phase)
    requires LocksOk(tasks, locks) && t in tasks && HoldsLock(tasks[t].phase) && !HoldsLock(p)
    ensures LocksOk(tasks - {t}, locks - {tasks[t].org})
    ensures LocksOk(tasks[t := tasks[t].(phase := p)], locks - {tasks[t].org})
  {}

  lemma LocksTaken(tasks: map<Id, Task>, locks: map<Id, Id>, t: Id, p: Phase)
    requires LocksOk(tasks, locks) && t in tasks && !HoldsLock(tasks[t].phase) && HoldsLock(p) && tasks[t].org !in locks
    ensures LocksOk(tasks[t := tasks[t].(phase := p)], locks[tasks[t].org := t])
  {}

  lemma LocksIgnored(tasks: map<Id, Task>, locks: map<Id, Id>, t: Id, x: Task)
    requires LocksOk(tasks, locks) && (t in tasks ==> !HoldsLock(tasks[t].phase)) && !HoldsLock(x.phase)
    ensures LocksOk(tasks - {t}, locks) && LocksOk(tasks[t := x], locks)
  {}

  lemma LocksNext(s: State, a: Step)
    requires LocksOk(s.tasks, s.locks) && TasksOk(s) && Enabled(s, a)
    ensures LocksOk(Next(s, a).tasks, Next(s, a).locks)
  {
    match a {
      case Submit(j, t) => LocksIgnored(s.tasks, s.locks, t, Task(j, s.jobs[j].org, Waiting));
      case TakeLock(t) => LocksTaken(s.tasks, s.locks, t, Locked);
      case TakeSlot(t) => LocksRephased(s.tasks, s.locks, t, Entered);
      case Claim(t) =>
        LocksRephased(s.tasks, s.locks, t, Claimed);
        LocksReleased(s.tasks, s.locks, t, Waiting);
      case Unavailable(t) => LocksReleased(s.tasks, s.locks, t, Waiting);
      case StartPipeline(t) => LocksRephased(s.tasks, s.locks, t, Piping);
      case EndPipeline(t, ok) => LocksRephased(s.tasks, s.locks, t, Ended(ok));
      case Commit(t, fault) => LocksReleased(s.tasks, s.locks, t, Crashed(true));
      case Fault(t) => LocksReleased(s.tasks, s.locks, t, Crashed(!s.tasks[t].phase.Entered?));
      case FinishCrashed(t) => LocksIgnored(s.tasks, s.locks, t, s.tasks[t]);
      case LoseTask(t) => LocksIgnored(s.tasks, s.locks, t, s.tasks[t]);
      case Start(_) => assert s.locks.Keys == {};
      case _ =>
    }
  }

  // ------------------------------------------------------------------ slots and counters

  function One(b: bool): nat { if b then 1 else 0 }

  lemma Counted(before: set<Id>, after: set<Id>, t: Id)
    requires before - {t} == after - {t}
    ensures |after| - |before| == One(t in after) - One(t in before)
  {
    assert before == if t in before then (before - {t}) + {t} else before - {t};
    assert after == if t in after then (after - {t}) + {t} else after - {t};
  }

  /** Exactly one task changes: the counters change by what it takes up and gives back. */
  lemma OneTaskChanges(before: map<Id, Task>, after: map<Id, Task>, t: Id)
    requires before - {t} == after - {t}
    ensures |Slots(after)| - |Slots(before)| == One(t in Slots(after)) - One(t in Slots(before))
    ensures |Pipers(after)| - |Pipers(before)| == One(t in Pipers(after)) - One(t in Pipers(before))
  {
    forall u | u != t ensures u in before <==> u in after ensures u in before ==> before[u] == after[u] {
      assert u in before - {t} <==> u in after - {t};
      if u in before {
        assert (before - {t})[u] == (after - {t})[u];
      }
    }
    Counted(Slots(before), Slots(after), t);
    Counted(Pipers(before), Pipers(after), t);
  }

  function Touched(a: Step): Option<Id> {
    match a
    case Submit(_, t) => Some(t)
    case TakeLock(t) => Some(t)
    case TakeSlot(t) => Some(t)
    case Claim(t) => Some(t)
    case Unavailable(t) => Some(t)
    case StartPipeline(t) => Some(t)
    case EndPipeline(t, _) => Some(t)
    case Commit(t, _) => Some(t)
    case Fault(t) => Some(t)
    case FinishCrashed(t) => Some(t)
    case LoseTask(t) => Some(t)
    case _ => None
  }

  lemma OnlyTouched(s: State, a: Step)
    requires Enabled(s, a) && Touched(a).Some?
    ensures s.tasks - {Touched(a).value} == Next(s, a).tasks - {Touched(a).value}
  {}

  lemma FreeFollows(s: State, a: Step)
    requires Enabled(s, a) && Touched(a).Some?
    ensures var n := Next(s, a); var t := Touched(a).value;
      n.free - s.free == One(t in Slots(s.tasks)) - One(t in Slots(n.tasks)) && (n.free < s.free ==> s.free > 0)
  {}

  lemma RunningFollows(s: State, a: Step)
    requires Enabled(s, a) && Touched(a).Some?
    ensures var n := Next(s, a); var t := Touched(a).value;
      n.runningNow - s.runningNow == One(t in Pipers(n.tasks)) - One(t in Pipers(s.tasks))
  {}

  lemma LimitStays(s: State, a: Step)
    requires Enabled(s, a)
    ensures Next(s, a).limit == s.limit
  {}

  lemma SlotsNext(s: State, a: Step)
    requires SlotsOk(s) && TasksOk(s) && Enabled(s, a)
    ensures SlotsOk(Next(s, a))
  {
    LimitStays(s, a);
    if Touched(a).Some? {
      OnlyTouched(s, a);
      FreeFollows(s, a);
      RunningFollows(s, a);
      OneTaskChanges(s.tasks, Next(s, a).tasks, Touched(a).value);
    } else {
      SlotsNextOther(s, a);
    }
  }

  lemma SlotsNextOther(s: State, a: Step)
    requires SlotsOk(s) && TasksOk(s) && Enabled(s, a) && Touched(a).None?
    ensures SlotsOk(Next(s, a))
  {
    var n := Next(s, a);
    if a.Start? || a.Die? || a.Stop? {
      assert Slots(n.tasks) == {} && Pipers(n.tasks) == {};
      if a.Start? {
        assert Slots(s.tasks) == {} && Pipers(s.tasks) == {};
      }
    }
  }

  // ------------------------------------------------------------------ organizations in use

  /** A task that does not run a pipeline before or after leaves the count alone. */
  lemma InUseQuiet(s: State, n: State, t: Id)
    requires LocksOk(s.tasks, s.locks) && InUseOk(s)
    requires n.inUse == s.inUse && n.tasks - {t} == s.tasks - {t}
    requires t in s.tasks ==> !s.tasks[t].phase.Piping?
    requires t in n.tasks ==> !n.tasks[t].phase.Piping?
    requires forall o :: o in s.locks && s.locks[o] != t ==> o in n.locks && n.locks[o] == s.locks[o]
    ensures InUseOk(n)
  {
    forall u | u != t ensures u in s.tasks <==> u in n.tasks ensures u in s.tasks ==> s.tasks[u] == n.tasks[u] {
      assert u in s.tasks - {t} <==> u in n.tasks - {t};
      if u in s.tasks {
        assert (s.tasks - {t})[u] == (n.tasks - {t})[u];
      }
    }
    forall o | Uses(n.inUse, o) == 1
      ensures o in n.locks && n.locks[o] in n.tasks && n.tasks[n.locks[o]].phase.Piping?
    {
      assert s.locks[o] != t;
    }
  }

  /** Other locks stay when a task takes or gives back its own. */
  lemma OtherLocks(s: State, a: Step)
    requires LocksOk(s.tasks, s.locks) && Enabled(s, a) && Touched(a).Some?
    ensures forall o :: o in s.locks && s.locks[o] != Touched(a).value ==>
        o in Next(s, a).locks && Next(s, a).locks[o] == s.locks[o]
  {}

  lemma QuietStep(s: State, a: Step)
    requires Enabled(s, a) && Touched(a).Some? && !a.StartPipeline? && !a.EndPipeline? && !a.Fault?
    ensures var n := Next(s, a); var t := Touched(a).value;
      n.inUse == s.inUse && (t in s.tasks ==> !s.tasks[t].phase.Piping?) && (t in n.tasks ==> !n.tasks[t].phase.Piping?)
  {}

  lemma InUseOther(s: State, a: Step)
    requires InUseOk(s) && TasksOk(s) && Enabled(s, a) && Touched(a).None?
    ensures InUseOk(Next(s, a))
  {}

  /** Only the holder of an organization's lock runs a pipeline for it. */
  lemma PiperHolds(s: State, t: Id)
    requires LocksOk(s.tasks, s.locks) && InUseOk(s) && t in s.tasks && HoldsSlot(s.tasks[t].phase)
    ensures Uses(s.inUse, s.tasks[t].org) == One(s.tasks[t].phase.Piping?)
    ensures forall u :: u in s.tasks && HoldsSlot(s.tasks[u].phase) && u != t ==> s.tasks[u].org != s.tasks[t].org
  {
    assert s.locks[s.tasks[t].org] == t;
  }

  lemma InUseBegins(s: State, t: Id)
    requires LocksOk(s.tasks, s.locks) && InUseOk(s) && Enabled(s, StartPipeline(t))
    ensures InUseOk(Next(s, StartPipeline(t)))
  {
    PiperHolds(s, t);
    var n := Next(s, StartPipeline(t));
    assert n.locks[s.tasks[t].org] == t;
    forall o | o != s.tasks[t].org ensures Uses(n.inUse, o) == Uses(s.inUse, o) {}
  }

  /** The registry's count drops to zero with the only pipeline of the organization. */
  lemma InUseEnds(s: State, n: State, t: Id)
    requires LocksOk(s.tasks, s.locks) && InUseOk(s) && t in s.tasks && HoldsSlot(s.tasks[t].phase)
    requires t in n.tasks && n.tasks[t].org == s.tasks[t].org && n.tasks == s.tasks[t := n.tasks[t]]
    requires !n.tasks[t].phase.Piping?
    requires forall o :: o != s.tasks[t].org ==> Uses(n.inUse, o) == Uses(s.inUse, o)
    requires Uses(n.inUse, s.tasks[t].org) == 0
    requires forall o :: o in s.locks && s.locks[o] != t ==> o in n.locks && n.locks[o] == s.locks[o]
    ensures InUseOk(n)
  {
    PiperHolds(s, t);
    forall o | Uses(n.inUse, o) == 1
      ensures o in n.locks && n.locks[o] in n.tasks && n.tasks[n.locks[o]].phase.Piping?
    {
      assert o != s.tasks[t].org;
      assert s.locks[o] != t;
    }
  }

  lemma PipelineLeft(s: State, a: Step, t: Id)
    requires Enabled(s, a) && (a == Fault(t) || a == EndPipeline(t, true) || a == EndPipeline(t, false))
    requires Uses(s.inUse, s.tasks[t].org) == One(s.tasks[t].phase.Piping?)
    ensures var n := Next(s, a);
      && t in n.tasks && n.tasks[t].org == s.tasks[t].org && n.tasks == s.tasks[t := n.tasks[t]]
      && !n.tasks[t].phase.Piping?
      && (forall o :: o != s.tasks[t].org ==> Uses(n.inUse, o) == Uses(s.inUse, o))
      && Uses(n.inUse, s.tasks[t].org) == 0
  {}

  lemma InUseNext(s: State, a: Step)
    requires LocksOk(s.tasks, s.locks) && TasksOk(s) && InUseOk(s) && Enabled(s, a)
    ensures InUseOk(Next(s, a))
  {
    if Touched(a).None? {
      InUseOther(s, a);
    } else if a.StartPipeline? {
      InUseBegins(s, a.t);
    } else if a.EndPipeline? || a.Fault? {
      var t := Touched(a).value;
      PiperHolds(s, t);
      PipelineLeft(s, a, t);
      OtherLocks(s, a);
      InUseEnds(s, Next(s, a), t);
    } else {
      QuietStep(s, a);
      OnlyTouched(s, a);
      OtherLocks(s, a);
      InUseQuiet(s, Next(s, a), Touched(a).value);
    }
  }

  // ------------------------------------------------------------------ tasks and their jobs

  /** Jobs stay, keep their organization, and never return to the queue. */
  ghost predicate JobsEvolve(before: map<Id, Job>, after: map<Id, Job>) {
    && before.Keys <= after.Keys
    && (forall j :: j in before ==>
        after[j].org == before[j].org && (after[j].status.Queued? ==> before[j].status.Queued?))
  }

  lemma JobsNext(s: State, a: Step)
    requires Enabled(s, a)
    ensures JobsEvolve(s.jobs, Next(s, a).jobs)
  {
    match a {
      case CreateJob(_, _) =>
      case Cancel(j) => PutEvolves(s.jobs, j, ToCancelled);
      case DeliverProgress(j, percent) => PutEvolves(s.jobs, j, ToProgress(percent));
      case Unavailable(t) => PutEvolves(s.jobs, s.tasks[t].job, ToFinished);
      case Commit(t, _) => PutEvolves(s.jobs, s.tasks[t].job, ToEnded(s.tasks[t].phase.ok));
      case FinishCrashed(t) => PutEvolves(s.jobs, s.tasks[t].job, ToFinished);
      case _ =>
    }
  }

  lemma PutEvolves(jobs: map<Id, Job>, j: Id, c: Change)
    ensures JobsEvolve(jobs, Put(jobs, j, c))
  {}

  /** A task keeps its job; only the conditional claim makes it an owner; new tasks wait. */
  lemma TaskMoves(s: State, a: Step, t: Id)
    requires Enabled(s, a) && t in Next(s, a).tasks && !a.Start?
    ensures var x := Next(s, a).tasks[t];
      if a.Submit? && a.t == t then a.j in s.jobs && x == Task(a.j, s.jobs[a.j].org, Waiting)
      else t in s.tasks && x.job == s.tasks[t].job && x.org == s.tasks[t].org
           && (a != Claim(t) ==> (HasClaimed(x.phase) ==> HasClaimed(s.tasks[t].phase))
                                  && (Owns(x.phase) ==> Owns(s.tasks[t].phase)))
  {}

  lemma ClaimTakes(s: State, t: Id)
    requires Enabled(s, Claim(t)) && t in Next(s, Claim(t)).tasks
    ensures var j := s.tasks[t].job;
      j in s.jobs && s.jobs[j].status.Queued?
          && Next(s, Claim(t)).jobs == s.jobs[j := s.jobs[j].(status := Running, progress := 5)]
  {}

  lemma TasksNext(s: State, a: Step)
    requires TasksOk(s) && Enabled(s, a)
    ensures TasksOk(Next(s, a))
  {
    var n := Next(s, a);
    if !a.Start? {
      JobsNext(s, a);
      forall t | t in n.tasks ensures n.tasks[t].job in n.jobs && n.jobs[n.tasks[t].job].org == n.tasks[t].org {
        TaskMoves(s, a, t);
      }
      DownIsEmpty(s, a);
    }
  }

  lemma DownIsEmpty(s: State, a: Step)
    requires (!s.up ==> s.tasks == map[]) && Enabled(s, a)
    ensures !Next(s, a).up ==> Next(s, a).tasks == map[]
  {}

  /** What a step may do to a job that a task owns. */
  lemma OwnedNext(s: State, a: Step, t: Id)
    requires Enabled(s, a) && ClaimsOk(s.tasks, s.jobs) && t in s.tasks && Owns(s.tasks[t].phase)
    requires t in Next(s, a).tasks && Owns(Next(s, a).tasks[t].phase) && !a.Start?
    ensures var j, jobs := s.tasks[t].job, Next(s, a).jobs;
      j in jobs && (jobs[j].status.Running? || jobs[j].status.Failed?)
  {
    var j := s.tasks[t].job;
    match a {
      case Commit(u, _) => assert u != t && s.tasks[u].job != j;
      case Claim(u) => ClaimTaken(s, u, j);
      case _ =>
    }
  }

  lemma ClaimTaken(s: State, t: Id, j: Id)
    requires Enabled(s, Claim(t)) && j in s.jobs && !s.jobs[j].status.Queued?
    ensures j in Next(s, Claim(t)).jobs && Next(s, Claim(t)).jobs[j] == s.jobs[j]
  {}

  /** Who has claimed a job after a step had claimed it before, or claims it now while it is queued. */
  lemma ClaimedBefore(s: State, a: Step, t: Id)
    requires ClaimsOk(s.tasks, s.jobs) && Enabled(s, a) && !a.Start?
    requires t in Next(s, a).tasks && HasClaimed(Next(s, a).tasks[t].phase)
    ensures t in s.tasks && Next(s, a).tasks[t].job == s.tasks[t].job
    ensures var j := s.tasks[t].job; var n := Next(s, a);
      && j in s.jobs && j in n.jobs && !n.jobs[j].status.Queued?
      && (if a == Claim(t) then s.jobs[j].status.Queued? else HasClaimed(s.tasks[t].phase) && !s.jobs[j].status.Queued?)
  {
    TaskMoves(s, a, t);
    JobsNext(s, a);
    if a == Claim(t) { ClaimTakes(s, t); }
  }

  lemma OwnedAfter(s: State, a: Step, t: Id)
    requires ClaimsOk(s.tasks, s.jobs) && Enabled(s, a) && !a.Start?
    requires t in Next(s, a).tasks && Owns(Next(s, a).tasks[t].phase)
    ensures var n := Next(s, a); var j := n.tasks[t].job;
      j in n.jobs && (n.jobs[j].status.Running? || n.jobs[j].status.Failed?)
  {
    TaskMoves(s, a, t);
    if a == Claim(t) { ClaimTakes(s, t); } else { OwnedNext(s, a, t); }
  }

  lemma ClaimsNext(s: State, a: Step)
    requires ClaimsOk(s.tasks, s.jobs) && Enabled(s, a)
    ensures ClaimsOk(Next(s, a).tasks, Next(s, a).jobs)
  {
    if a.Start? {
      StartWaits(s, a);
    } else {
      var tasks, jobs := Next(s, a).tasks, Next(s, a).jobs;
      forall t | t in tasks && HasClaimed(tasks[t].phase)
        ensures tasks[t].job in jobs && !jobs[tasks[t].job].status.Queued?
      {
        ClaimedBefore(s, a, t);
      }
      forall t, u | t in tasks && u in tasks && t != u && HasClaimed(tasks[t].phase) && HasClaimed(tasks[u].phase)
        ensures tasks[t].job != tasks[u].job
      {
        ClaimedBefore(s, a, t);
        ClaimedBefore(s, a, u);
      }
      forall t | t in tasks && Owns(tasks[t].phase)
        ensures tasks[t].job in jobs && (jobs[tasks[t].job].status.Running? || jobs[tasks[t].job].status.Failed?)
      {
        OwnedAfter(s, a, t);
      }
    }
  }

  lemma StartWaits(s: State, a: Step)
    requires Enabled(s, a) && a.Start?
    ensures forall t :: t in Next(s, a).tasks ==> Next(s, a).tasks[t].phase.Waiting?
  {}

  // ------------------------------------------------------------------ pipeline starts

  lemma StartsNext(s: State, a: Step)
    requires ClaimsOk(s.tasks, s.jobs) && StartsOk(s) && Enabled(s, a)
    ensures StartsOk(Next(s, a))
  {
    var n := Next(s, a);
    forall j ensures StartOk(n, j) {
      StartedOnce(s, a, j);
    }
    forall t | t in n.tasks && n.tasks[t].phase.Claimed? ensures Count(n.starts, n.tasks[t].job) == 0 {
      if a.Start? {
        StartWaits(s, a);
      } else {
        UnstartedStays(s, a, t);
      }
    }
  }

  lemma StartedOnce(s: State, a: Step, j: Id)
    requires ClaimsOk(s.tasks, s.jobs) && StartsOk(s) && Enabled(s, a)
    ensures StartOk(Next(s, a), j)
  {
    assert StartOk(s, j);
    JobsNext(s, a);
    if j in s.jobs && !s.jobs[j].status.Queued? && !s.jobs[j].status.Cancelled? {
      NoCancel(s, a, j);
    }
  }

  lemma NoCancel(s: State, a: Step, j: Id)
    requires Enabled(s, a) && j in s.jobs && !s.jobs[j].status.Queued? && !s.jobs[j].status.Cancelled?
    ensures j in Next(s, a).jobs && !Next(s, a).jobs[j].status.Cancelled?
  {
    match a {
      case Cancel(k) => PutNotCancelled(s.jobs, k, ToCancelled, j);
      case DeliverProgress(k, percent) => PutNotCancelled(s.jobs, k, ToProgress(percent), j);
      case Unavailable(t) => PutNotCancelled(s.jobs, s.tasks[t].job, ToFinished, j);
      case Commit(t, _) => PutNotCancelled(s.jobs, s.tasks[t].job, ToEnded(s.tasks[t].phase.ok), j);
      case FinishCrashed(t) => PutNotCancelled(s.jobs, s.tasks[t].job, ToFinished, j);
      case _ =>
    }
  }

  lemma PutNotCancelled(jobs: map<Id, Job>, k: Id, c: Change, j: Id)
    requires j in jobs && !jobs[j].status.Queued? && !jobs[j].status.Cancelled?
    ensures j in Put(jobs, k, c) && !Put(jobs, k, c)[j].status.Cancelled?
  {}

  lemma UnstartedStays(s: State, a: Step, t: Id)
    requires ClaimsOk(s.tasks, s.jobs) && StartsOk(s) && Enabled(s, a) && !a.Start?
    requires t in Next(s, a).tasks && Next(s, a).tasks[t].phase.Claimed?
    ensures Count(Next(s, a).starts, Next(s, a).tasks[t].job) == 0
  {
    ClaimedBefore(s, a, t);
    assert StartOk(s, s.tasks[t].job);
    if a.StartPipeline? {
      assert a.t != t;
    } else if a != Claim(t) {
      ClaimedStays(s, a, t);
    }
  }

  lemma ClaimedStays(s: State, a: Step, t: Id)
    requires Enabled(s, a) && a != Claim(t) && t in s.tasks && t in Next(s, a).tasks
    requires Next(s, a).tasks[t].phase.Claimed?
    requires !a.Start?
    ensures s.tasks[t].phase.Claimed?
  {}

  // ------------------------------------------------------------------ progress and usage

  lemma ProgressNext(s: State, a: Step)
    requires ProgressOk(s) && Enabled(s, a)
    ensures ProgressOk(Next(s, a))
  {
    JobProgressNext(s, a);
    LateNext(s, a);
  }

  lemma LateNext(s: State, a: Step)
    requires ProgressOk(s) && Enabled(s, a)
    ensures forall j, p :: (j, p) in Next(s, a).late ==> 0 <= p <= 100
  {}

  /** Progress is a percentage, and nothing has happened to a queued job. */
  ghost predicate Percentages(jobs: map<Id, Job>) {
    forall j :: j in jobs ==> 0 <= jobs[j].progress <= 100 && (jobs[j].status.Queued? ==> jobs[j].progress == 0)
  }

  lemma PutProgress(jobs: map<Id, Job>, j: Id, c: Change)
    requires Percentages(jobs) && (c.ToProgress? ==> 0 <= c.percent <= 100)
    ensures Percentages(Put(jobs, j, c))
  {}

  lemma JobProgressNext(s: State, a: Step)
    requires Percentages(s.jobs) && Enabled(s, a) && forall j, p :: (j, p) in s.late ==> 0 <= p <= 100
    ensures Percentages(Next(s, a).jobs)
  {
    match a {
      case Cancel(j) => PutProgress(s.jobs, j, ToCancelled);
      case DeliverProgress(j, percent) => PutProgress(s.jobs, j, ToProgress(percent));
      case Unavailable(t) => PutProgress(s.jobs, s.tasks[t].job, ToFinished);
      case Commit(t, _) => PutProgress(s.jobs, s.tasks[t].job, ToEnded(s.tasks[t].phase.ok));
      case FinishCrashed(t) => PutProgress(s.jobs, s.tasks[t].job, ToFinished);
      case _ =>
    }
  }

  /** Only the final update of a run creates a success, and it counts it. */
  lemma SucceededNext(s: State, a: Step, o: Id)
    requires TasksOk(s) && ClaimsOk(s.tasks, s.jobs) && Enabled(s, a)
    ensures !(a.Commit? && s.tasks[a.t].phase.ok && s.tasks[a.t].org == o) ==>
      SucceededOf(Next(s, a).jobs, o) == SucceededOf(s.jobs, o) && Count(Next(s, a).usage, o) == Count(s.usage, o)
  {
    forall j ensures Succeeds(s.jobs, o, j) == Succeeds(Next(s, a).jobs, o, j)
                     || (a.Commit? && s.tasks[a.t].phase.ok && s.tasks[a.t].org == o)
    {
      SucceedsNext(s, a, o, j);
    }
    assert forall j :: j in SucceededOf(s.jobs, o) <==> Succeeds(s.jobs, o, j);
    assert forall j :: j in SucceededOf(Next(s, a).jobs, o) <==> Succeeds(Next(s, a).jobs, o, j);
  }

  predicate Succeeds(jobs: map<Id, Job>, o: Id, j: Id) { j in jobs && jobs[j].org == o && jobs[j].status.Succeeded? }

  lemma SucceedsNext(s: State, a: Step, o: Id, j: Id)
    requires TasksOk(s) && ClaimsOk(s.tasks, s.jobs) && Enabled(s, a)
    ensures Succeeds(s.jobs, o, j) == Succeeds(Next(s, a).jobs, o, j)
            || (a.Commit? && s.tasks[a.t].phase.ok && s.tasks[a.t].org == o)
  {
    if a.Commit? {
      assert s.jobs[s.tasks[a.t].job].org == s.tasks[a.t].org;
    }
  }

  lemma UsageNext(s: State, a: Step)
    requires TasksOk(s) && ClaimsOk(s.tasks, s.jobs) && UsageOk(s) && Enabled(s, a)
    ensures UsageOk(Next(s, a))
  {
    var n := Next(s, a);
    forall o ensures Count(n.usage, o) == |SucceededOf(n.jobs, o)| {
      if a.Commit? && s.tasks[a.t].phase.ok && s.tasks[a.t].org == o {
        var j := s.tasks[a.t].job;
        assert j !in SucceededOf(s.jobs, o);
        assert n.jobs == s.jobs[j := EndRow(s.jobs[j], true)];
        assert SucceededOf(n.jobs, o) == SucceededOf(s.jobs, o) + {j};
      } else {
        SucceededNext(s, a, o);
      }
    }
  }

  // ------------------------------------------------------------------ the whole invariant

  lemma NextInv(s: State, a: Step)
    requires Inv(s) && Enabled(s, a)
    ensures Inv(Next(s, a))
  {
    LocksNext(s, a);
    SlotsNext(s, a);
    InUseNext(s, a);
    TasksNext(s, a);
    ClaimsNext(s, a);
    StartsNext(s, a);
    ProgressNext(s, a);
    UsageNext(s, a);
  }

  lemma {:induction false} RunInv(s: State, run: seq<Step>)
    requires Inv(s) && EnabledRun(s, run)
    ensures Inv(Run(s, run))
    decreases |run|
  {
    if run != [] {
      NextInv(s, run[0]);
      RunInv(Next(s, run[0]), run[1..]);
    }
  }
}
