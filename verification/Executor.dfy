/** The job executor (app/control/executor.py): a queue of tasks, a lock per organization, a global semaphore, and the
    job rows in the database.

    One step is what runs between two suspension points. The process may die at any point, be stopped, and be started
    again; jobs may be submitted twice; a task may fail with an exception in every phase. */
module Executor {
  import opened Common

  type Id = nat

  datatype Status = Queued | Running | Succeeded | Failed | Cancelled
  datatype Job = Job(org: Id, status: Status, progress: int)

  predicate Terminal(s: Status) { s.Succeeded? || s.Failed? || s.Cancelled? }

  /** Where a task is. `Crashed` has left the lock and the semaphore and still has to record the failure. */
  datatype Phase = Waiting | Locked | Entered | Claimed | Piping | Ended(ok: bool) | Crashed(claimed: bool)
  datatype Task = Task(job: Id, org: Id, phase: Phase)

  /** `free` is the semaphore, `locks` the holder of each organization's lock, `late` the progress callbacks on their
      way, `zombies` the runs in threads whose task was cancelled by a stop. `starts` counts pipeline starts per
      job. */
  datatype State = State(
    limit: nat, up: bool,
    jobs: map<Id, Job>, usage: map<Id, nat>,
    tasks: map<Id, Task>, locks: map<Id, Id>, free: int, runningNow: int, inUse: map<Id, int>,
    late: set<(Id, int)>, zombies: set<Id>, starts: map<Id, nat>)

  function Count<K>(m: map<K, nat>, k: K): nat { if k in m then m[k] else 0 }
  function Uses(m: map<Id, int>, k: Id): int { if k in m then m[k] else 0 }

  datatype Step =
    | CreateJob(j: Id, org: Id)
    | Cancel(j: Id)
    | Submit(j: Id, t: Id)
    | TakeLock(t: Id)
    | TakeSlot(t: Id)
    | Claim(t: Id)
    | Unavailable(t: Id)
    | StartPipeline(t: Id)
    | Report(j: Id, percent: int)
    | DeliverProgress(j: Id, percent: int)
    | EndPipeline(t: Id, ok: bool)
    | Commit(t: Id, fault: bool)
    | Fault(t: Id)
    | FinishCrashed(t: Id)
    | LoseTask(t: Id)
    | Die
    | Stop
    | Start(names: map<Id, Id>)

  predicate HoldsLock(p: Phase) { p.Locked? || HoldsSlot(p) }
  predicate HoldsSlot(p: Phase) { p.Entered? || p.Claimed? || p.Piping? || p.Ended? }

  /** The task has claimed its job and has not recorded an end yet. */
  predicate Owns(p: Phase) { p.Claimed? || p.Piping? || p.Ended? }

  predicate In(s: State, t: Id, p: Phase) { t in s.tasks && s.tasks[t].phase == p }

  function QueuedJobs(s: State): set<Id> { set j | j in s.jobs && s.jobs[j].status.Queued? }

  /** What may happen next. Callers only submit jobs that exist; callbacks come from a running pipeline or a zombie. */
  predicate Enabled(s: State, a: Step) {
    match a
    case CreateJob(j, _) => j !in s.jobs && j !in s.starts
    case Cancel(_) => true
    case Submit(j, t) => s.up && j in s.jobs && t !in s.tasks
    case TakeLock(t) => s.up && In(s, t, Waiting) && s.tasks[t].org !in s.locks
    case TakeSlot(t) => s.up && In(s, t, Locked) && s.free > 0
    case Claim(t) => s.up && In(s, t, Entered)
    case Unavailable(t) => s.up && In(s, t, Claimed)
    case StartPipeline(t) => s.up && In(s, t, Claimed)
    case Report(j, percent) =>
      0 <= percent <= 100
          && (j in s.zombies || exists t :: t in s.tasks && s.tasks[t] == Task(j, s.tasks[t].org, Piping))
    case DeliverProgress(j, percent) => (j, percent) in s.late
    case EndPipeline(t, _) => s.up && In(s, t, Piping)
    case Commit(t, _) => s.up && t in s.tasks && s.tasks[t].phase.Ended?
    case Fault(t) => s.up && t in s.tasks && HoldsSlot(s.tasks[t].phase)
    case FinishCrashed(t) => s.up && t in s.tasks && s.tasks[t].phase.Crashed?
    case LoseTask(t) => s.up && t in s.tasks && s.tasks[t].phase.Crashed?
    case Die => true
    case Stop => s.up
    case Start(names) =>
      !s.up && names.Keys == QueuedJobs(s)
          && (forall i, j :: i in names && j in names && i != j ==> names[i] != names[j])
  }

  // ------------------------------------------------------------------ the conditional updates

  /** `_progress`: never back, and only while running. */
  function ProgressRow(job: Job, percent: int): Job {
    if job.status.Running? && job.progress < percent then job.(progress := percent) else job
  }

  /** `_finish`: only queued or running jobs can end this way. */
  function FinishRow(job: Job): Job {
    if job.status.Queued? || job.status.Running? then job.(status := Failed, progress := 100) else job
  }

  function CancelRow(job: Job): Job {
    if job.status.Queued? then job.(status := Cancelled, progress := 0) else job
  }

  /** The first statement of `start`. */
  function AbandonRow(job: Job): Job { if job.status.Running? then job.(status := Failed) else job }

  function Abandoned(jobs: map<Id, Job>): map<Id, Job> { map j | j in jobs :: AbandonRow(jobs[j]) }

  /** The jobs whose threads go on without a task. */
  function PipingJobs(tasks: map<Id, Task>): set<Id> { set t | t in tasks && tasks[t].phase.Piping? :: tasks[t].job }

  /** The last update of `_execute`: it has no condition on the status. */
  function EndRow(job: Job, ok: bool): Job { job.(status := if ok then Succeeded else Failed, progress := 100) }

  datatype Change = ToProgress(percent: int) | ToFinished | ToCancelled | ToEnded(ok: bool)

  function Changed(job: Job, c: Change): Job {
    match c
    case ToProgress(percent) => ProgressRow(job, percent)
    case ToFinished => FinishRow(job)
    case ToCancelled => CancelRow(job)
    case ToEnded(ok) => EndRow(job, ok)
  }

  /** One UPDATE statement for one job; a row that is gone is not an error. */
  function Put(jobs: map<Id, Job>, j: Id, c: Change): map<Id, Job> {
    if j in jobs then jobs[j := Changed(jobs[j], c)] else jobs
  }

  /** The task leaves `async with`: lock and semaphore are given back. */
  function Release(s: State, t: Id): State
    requires t in s.tasks
  {
    s.(locks := s.locks - {s.tasks[t].org}, free := s.free + 1)
  }

  function Forget(s: State, t: Id): State { s.(tasks := s.tasks - {t}) }

  /** `finally` around the pipeline. */
  function LeavePipeline(s: State, t: Id): State
    requires t in s.tasks
  {
    var org := s.tasks[t].org;
    s.(runningNow := s.runningNow - 1,
       inUse := s.inUse[org := if Uses(s.inUse, org) - 1 > 0 then Uses(s.inUse, org) - 1 else 0])
  }

  ghost function Next(s: State, a: Step): State
    requires Enabled(s, a)
  {
    match a
    case CreateJob(j, org) => s.(jobs := s.jobs[j := Job(org, Queued, 0)])
    case Cancel(j) => s.(jobs := Put(s.jobs, j, ToCancelled))
    case Submit(j, t) => s.(tasks := s.tasks[t := Task(j, s.jobs[j].org, Waiting)])
    case TakeLock(t) =>
      s.(locks := s.locks[s.tasks[t].org := t], tasks := s.tasks[t := s.tasks[t].(phase := Locked)])
    case TakeSlot(t) => s.(free := s.free - 1, tasks := s.tasks[t := s.tasks[t].(phase := Entered)])
    case Claim(t) =>
      var j := s.tasks[t].job;
      if j in s.jobs && s.jobs[j].status.Queued?
      then s.(jobs := s.jobs[j := s.jobs[j].(status := Running, progress := 5)],
              tasks := s.tasks[t := s.tasks[t].(phase := Claimed)])
      else Forget(Release(s, t), t)
    case Unavailable(t) =>
      Forget(Release(s.(jobs := Put(s.jobs, s.tasks[t].job, ToFinished)), t), t)
    case StartPipeline(t) =>
      var task := s.tasks[t];
      s.(tasks := s.tasks[t := task.(phase := Piping)], runningNow := s.runningNow + 1,
         inUse := s.inUse[task.org := Uses(s.inUse, task.org) + 1],
         starts := s.starts[task.job := Count(s.starts, task.job) + 1])
    case Report(j, percent) => s.(late := s.late + {(j, percent)})
    case DeliverProgress(j, percent) =>
      s.(late := s.late - {(j, percent)}, jobs := Put(s.jobs, j, ToProgress(percent)))
    case EndPipeline(t, ok) =>
      LeavePipeline(s, t).(tasks := s.tasks[t := s.tasks[t].(phase := Ended(ok))])
    case Commit(t, fault) =>
      var task := s.tasks[t];
      var s1 := s.(jobs := Put(s.jobs, task.job, ToEnded(task.phase.ok)),
                   usage := if task.phase.ok then s.usage[task.org := Count(s.usage, task.org) + 1] else s.usage);
      var s2 := Release(s1, t);
      if fault then s2.(tasks := s2.tasks[t := task.(phase := Crashed(true))]) else Forget(s2, t)
    case Fault(t) =>
      var task := s.tasks[t];
      var s1 := if task.phase.Piping? then LeavePipeline(s, t) else s;
      Release(s1, t).(tasks := s.tasks[t := task.(phase := Crashed(!task.phase.Entered?))])
    case FinishCrashed(t) => Forget(s.(jobs := Put(s.jobs, s.tasks[t].job, ToFinished)), t)
    case LoseTask(t) => Forget(s, t)
    case Die =>
      s.(up := false, tasks := map[], locks := map[], free := s.limit, runningNow := 0, inUse := map[], late := {},
          zombies := {})
    case Stop =>
      s.(up := false, tasks := map[], locks := map[], free := s.limit, runningNow := 0, inUse := map[],
         zombies := s.zombies + PipingJobs(s.tasks))
    case Start(names) =>
      s.(up := true, jobs := Abandoned(s.jobs),
         tasks := map t | t in names.Values :: Task(JobNamed(names, t), s.jobs[JobNamed(names, t)].org, Waiting))
  }

  /** The job a task of the restart was created for. */
  ghost function JobNamed(names: map<Id, Id>, t: Id): Id
    requires t in names.Values
    ensures JobNamed(names, t) in names && names[JobNamed(names, t)] == t
  {
    var j :| j in names && names[j] == t;
    j
  }
}
