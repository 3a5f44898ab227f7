/** The executor as an object: each method is what the program does between two suspension points, and each is proved to
    be one step of the model. */
module ExecutorObject {
  import opened Common
  import opened Executor

  class JobExecutor {
    const limit: nat
    var up: bool
    var jobs: map<Id, Job>
    var usage: map<Id, nat>
    var tasks: map<Id, Task>
    var locks: map<Id, Id>
    var free: int
    var runningNow: int
    var inUse: map<Id, int>
    var late: set<(Id, int)>
    var zombies: set<Id>
    var nextTask: nat
    ghost var starts: map<Id, nat>

    constructor (limit: nat)
      ensures this.limit == limit && Fresh()
      ensures State() == Executor.State(limit, false, map[], map[], map[], map[], limit, 0, map[], {}, {}, map[])
    {
      this.limit := limit;
      up, jobs, usage, tasks, locks := false, map[], map[], map[], map[];
      free, runningNow, inUse, late, zombies, nextTask := limit, 0, map[], {}, {}, 0;
      starts := map[];
    }

    ghost function State(): Executor.State
      reads this
    {
      Executor.State(limit, up, jobs, usage, tasks, locks, free, runningNow, inUse, late, zombies, starts)
    }

    /** Task names are never reused. */
    ghost predicate Fresh()
      reads this
    {
      forall t :: t in tasks ==> t < nextTask
    }

    method Submit(j: Id) returns (t: Id)
      requires Fresh() && up && j in jobs
      modifies this`tasks, this`nextTask
      ensures Fresh() && Enabled(old(State()), Step.Submit(j, t)) && State() == Next(old(State()), Step.Submit(j, t))
    {
      t := CreateTask(j, jobs[j].org);
    }

    /** The event loop takes the task; it waits for the lock of its organization. */
    method CreateTask(j: Id, org: Id) returns (t: Id)
      requires Fresh()
      modifies this`tasks, this`nextTask
      ensures Fresh() && t !in old(tasks) && tasks == old(tasks)[t := Task(j, org, Waiting)]
    {
      t := nextTask;
      nextTask := nextTask + 1;
      tasks := tasks[t := Task(j, org, Waiting)];
    }

    /** `async with registry.lock(org)`: the task goes on when nobody holds the lock. */
    method AcquireLock(t: Id) returns (ok: bool)
      requires Fresh() && up && In(State(), t, Waiting)
      modifies this
      ensures Fresh() && ok == Enabled(old(State()), TakeLock(t))
      ensures State() == if ok then Next(old(State()), TakeLock(t)) else old(State())
    {
      ok := tasks[t].org !in locks;
      if ok {
        locks := locks[tasks[t].org := t];
        tasks := tasks[t := tasks[t].(phase := Locked)];
      }
    }

    method AcquireSlot(t: Id) returns (ok: bool)
      requires Fresh() && up && In(State(), t, Locked)
      modifies this
      ensures Fresh() && ok == Enabled(old(State()), TakeSlot(t))
      ensures State() == if ok then Next(old(State()), TakeSlot(t)) else old(State())
    {
      ok := free > 0;
      if ok {
        free := free - 1;
        tasks := tasks[t := tasks[t].(phase := Entered)];
      }
    }

    /** Leaving both context managers. */
    method Leave(t: Id)
      requires Fresh() && t in tasks
      modifies this`locks, this`free, this`tasks
      ensures Fresh() && State() == Forget(Release(old(State()), t), t)
    {
      locks := locks - {tasks[t].org};
      free := free + 1;
      tasks := tasks - {t};
    }

    /** The conditional update from queued to running; without a row the task ends. */
    method ClaimJob(t: Id) returns (claimed: bool)
      requires Fresh() && up && In(State(), t, Entered)
      modifies this
      ensures Fresh() && claimed == (t in tasks) && State() == Next(old(State()), Claim(t))
    {
      var j := tasks[t].job;
      claimed := j in jobs && jobs[j].status.Queued?;
      if claimed {
        jobs := jobs[j := jobs[j].(status := Running, progress := 5)];
        tasks := tasks[t := tasks[t].(phase := Claimed)];
      } else {
        Leave(t);
      }
    }

    /** `_finish`: only a queued or running job can end this way. */
    method Finish(j: Id)
      requires Fresh()
      modifies this`jobs
      ensures Fresh() && jobs == Put(old(jobs), j, ToFinished)
    {
      if j in jobs && (jobs[j].status.Queued? || jobs[j].status.Running?) {
        jobs := jobs[j := jobs[j].(status := Failed, progress := 100)];
      }
    }

    /** The uploaded file is gone, or there is no source at all. */
    method SourceUnavailable(t: Id)
      requires Fresh() && up && In(State(), t, Claimed)
      modifies this
      ensures Fresh() && State() == Next(old(State()), Unavailable(t))
    {
      Finish(tasks[t].job);
      Leave(t);
    }

    method BeginPipeline(t: Id)
      requires Fresh() && up && In(State(), t, Claimed)
      modifies this
      ensures Fresh() && State() == Next(old(State()), StartPipeline(t))
    {
      var org, j := tasks[t].org, tasks[t].job;
      inUse := inUse[org := Uses(inUse, org) + 1];
      runningNow := runningNow + 1;
      tasks := tasks[t := tasks[t].(phase := Piping)];
      starts := starts[j := Count(starts, j) + 1];
    }

    /** The `finally` block: it runs for a result and for an exception alike. */
    method LeaveRunner(org: Id)
      requires Fresh()
      modifies this`runningNow, this`inUse
      ensures runningNow == old(runningNow) - 1
      ensures inUse == old(inUse)[org := if Uses(old(inUse), org) - 1 > 0 then Uses(old(inUse), org) - 1 else 0]
    {
      runningNow := runningNow - 1;
      var left := Uses(inUse, org) - 1;
      if left > 0 {
        inUse := inUse[org := left];
      } else {
        inUse := inUse[org := 0];
      }
    }

    method PipelineReturns(t: Id, ok: bool)
      requires Fresh() && up && In(State(), t, Piping)
      modifies this
      ensures Fresh() && State() == Next(old(State()), EndPipeline(t, ok))
    {
      LeaveRunner(tasks[t].org);
      tasks := tasks[t := tasks[t].(phase := Ended(ok))];
    }

    /** The final transaction: usage and the job row together. */
    method CommitResult(t: Id)
      requires Fresh() && up && t in tasks && tasks[t].phase.Ended?
      modifies this
      ensures Fresh() && State() == Next(old(State()), Commit(t, false))
    {
      var task := tasks[t];
      if task.phase.ok {
        usage := usage[task.org := Count(usage, task.org) + 1];
      }
      if task.job in jobs {
        var status := if task.phase.ok then Succeeded else Failed;
        jobs := jobs[task.job := jobs[task.job].(status := status, progress := 100)];
      }
      Leave(t);
    }

    /** An exception leaves the lock and the semaphore, and only then reaches the handler of `_run`. */
    method Raise(t: Id)
      requires Fresh() && up && t in tasks && HoldsSlot(tasks[t].phase)
      modifies this
      ensures Fresh() && State() == Next(old(State()), Fault(t))
    {
      var task := tasks[t];
      if task.phase.Piping? {
        LeaveRunner(task.org);
      }
      Leave(t);
      tasks := tasks[t := task.(phase := Crashed(!task.phase.Entered?))];
      assert tasks == old(tasks)[t := task.(phase := Crashed(!task.phase.Entered?))];
    }

    method HandleCrash(t: Id)
      requires Fresh() && up && t in tasks && tasks[t].phase.Crashed?
      modifies this
      ensures Fresh() && State() == Next(old(State()), Step.FinishCrashed(t))
    {
      Finish(tasks[t].job);
      tasks := tasks - {t};
    }

    /** `_progress`, at some time after the pipeline reported it. */
    method Progress(j: Id, percent: int)
      requires Fresh() && Enabled(State(), DeliverProgress(j, percent))
      modifies this
      ensures Fresh() && State() == Next(old(State()), DeliverProgress(j, percent))
    {
      late := late - {(j, percent)};
      if j in jobs && jobs[j].status.Running? && jobs[j].progress < percent {
        jobs := jobs[j := jobs[j].(progress := percent)];
      }
    }

    method SubmitAll(queued: set<Id>) returns (ghost names: map<Id, Id>)
      requires Fresh() && up && tasks == map[] && queued <= jobs.Keys
      modifies this`tasks, this`nextTask
      ensures Fresh() && names.Keys == queued && Requeued(names, tasks, jobs)
    {
      var pending := queued;
      names := map[];
      while pending != {}
        invariant pending <= queued && names.Keys == queued - pending
        invariant Fresh() && Requeued(names, tasks, jobs)
        decreases |pending|
      {
        var j :| j in pending;
        OneDone(queued, pending, j);
        names := Resubmit(j, names);
        pending := pending - {j};
      }
    }

    /** One turn of the loop of `start`. */
    method Resubmit(j: Id, ghost earlier: map<Id, Id>) returns (ghost names: map<Id, Id>)
      requires Fresh() && j in jobs && j !in earlier && Requeued(earlier, tasks, jobs)
      modifies this`tasks, this`nextTask
      ensures Fresh() && names.Keys == earlier.Keys + {j} && Requeued(names, tasks, jobs)
    {
      ghost var before := tasks;
      var t := CreateTask(j, jobs[j].org);
      names := earlier[j := t];
      RequeuedOne(earlier, before, jobs, j, t);
    }

    /** Recovery: running jobs are abandoned, then every queued job is submitted again. */
    method Start() returns (ghost names: map<Id, Id>)
      requires Fresh() && !up && tasks == map[]
      modifies this
      ensures Fresh() && IsStart(old(State()), names, State())
    {
      ghost var before := State();
      up := true;
      jobs := Abandoned(jobs);
      var queued := set j | j in jobs && jobs[j].status.Queued?;
      assert queued == QueuedJobs(before);
      names := SubmitAll(queued);
      ghost var after := before.(up := true, jobs := jobs, tasks := tasks);
      assert State() == after;
      Restarted(before, names, after);
    }

    /** `stop` cancels every task: locks and slots are given back, threads keep running unobserved. */
    method Stop()
      requires Fresh() && up
      modifies this
      ensures Fresh() && State() == Next(old(State()), Step.Stop)
    {
      ghost var before := State();
      zombies := zombies + PipingJobs(tasks);
      up, tasks, locks, free, runningNow, inUse := false, map[], map[], limit, 0, map[];
      Stopped(before, State());
    }
  }

  lemma OneDone(all: set<Id>, pending: set<Id>, j: Id)
    requires j in pending && pending <= all
    ensures pending - {j} <= all && all - (pending - {j}) == (all - pending) + {j} && |pending - {j}| < |pending|
  {}

  /** The tasks are those of the jobs named so far, one each. */
  ghost predicate Requeued(names: map<Id, Id>, tasks: map<Id, Task>, jobs: map<Id, Job>) {
    && names.Keys <= jobs.Keys
    && (forall i, j :: i in names && j in names && i != j ==> names[i] != names[j])
    && (forall j :: j in names ==> names[j] in tasks && tasks[names[j]] == Task(j, jobs[j].org, Waiting))
    && (forall t :: t in tasks ==> exists j :: j in names && names[j] == t)
  }

  lemma RequeuedOne(names: map<Id, Id>, tasks: map<Id, Task>, jobs: map<Id, Job>, j: Id, t: Id)
    requires Requeued(names, tasks, jobs) && j in jobs && j !in names && t !in tasks
    ensures Requeued(names[j := t], tasks[t := Task(j, jobs[j].org, Waiting)], jobs)
  {
    var more := names[j := t];
    forall u | u in tasks || u == t ensures exists i :: i in more && more[i] == u {
      if u == t {
        assert more[j] == t;
      } else {
        var i :| i in names && names[i] == u;
        assert more[i] == u;
      }
    }
  }

  lemma Stopped(s: State, n: State)
    requires s.up
    requires n == s.(up := false, tasks := map[], locks := map[], free := s.limit, runningNow := 0, inUse := map[],
                             zombies := s.zombies + PipingJobs(s.tasks))
    ensures n == Next(s, Step.Stop)
  {}

  ghost predicate IsStart(s: State, names: map<Id, Id>, n: State) {
    Enabled(s, Start(names)) && n == Next(s, Start(names))
  }

  lemma Restarted(s: State, names: map<Id, Id>, n: State)
    requires !s.up && names.Keys == QueuedJobs(s)
    requires n == s.(up := true, jobs := Abandoned(s.jobs), tasks := n.tasks)
    requires Requeued(names, n.tasks, n.jobs)
    ensures IsStart(s, names, n)
  {
    var expected := Next(s, Start(names)).tasks;
    forall t | t in n.tasks ensures t in expected && n.tasks[t] == expected[t] {
      assert names[JobNamed(names, t)] == t;
    }
    assert n.tasks == expected;
  }
}
