/** What the executor promises over whole runs. */
module ExecutorTheorems {
  import opened Common
  import opened Executor
  import opened ExecutorInvariant

  // ------------------------------------------------------------------ mutual exclusion and limits

  /** At most one pipeline per organization and at most `limit` in all, counted exactly by `running_now`. */
  lemma RunsAreBounded(s: State, run: seq<Step>)
    requires Init(s) && EnabledRun(s, run)
    ensures var n := Run(s, run);
      && (forall t, u :: t in Pipers(n.tasks) && u in Pipers(n.tasks) && n.tasks[t].org == n.tasks[u].org ==> t == u)
      && n.runningNow == |Pipers(n.tasks)| <= n.limit == s.limit
      && (forall o :: Uses(n.inUse, o) == One(exists t :: t in Pipers(n.tasks) && n.tasks[t].org == o))
  {
    InitInv(s);
    RunInv(s, run);
    RunLimit(s, run);
    var n := Run(s, run);
    forall t, u | t in Pipers(n.tasks) && u in Pipers(n.tasks) && n.tasks[t].org == n.tasks[u].org ensures t == u {
      assert n.locks[n.tasks[t].org] == t;
    }
    assert Pipers(n.tasks) <= Slots(n.tasks);
    Smaller(Pipers(n.tasks), Slots(n.tasks));
    forall o ensures Uses(n.inUse, o) == One(exists t :: t in Pipers(n.tasks) && n.tasks[t].org == o) {
      if Uses(n.inUse, o) == 1 {
        assert n.locks[o] in Pipers(n.tasks) && n.tasks[n.locks[o]].org == o;
      }
    }
  }

  lemma Smaller(a: set<Id>, b: set<Id>)
    requires a <= b
    ensures |a| <= |b|
  {
    assert b == a + (b - a);
  }

  lemma {:induction false} RunLimit(s: State, run: seq<Step>)
    requires EnabledRun(s, run)
    ensures Run(s, run).limit == s.limit
    decreases |run|
  {
    if run != [] {
      LimitStays(s, run[0]);
      RunLimit(Next(s, run[0]), run[1..]);
    }
  }

  // ------------------------------------------------------------------ started at most once

  /** How often a run of the system starts the pipeline of a job. */
  ghost function StartsIn(s: State, run: seq<Step>, j: Id): nat
    requires EnabledRun(s, run)
    decreases |run|
  {
    if run == [] then 0
    else One(run[0].StartPipeline? && s.tasks[run[0].t].job == j) + StartsIn(Next(s, run[0]), run[1..], j)
  }

  lemma {:induction false} StartsAreCounted(s: State, run: seq<Step>, j: Id)
    requires EnabledRun(s, run)
    ensures Count(Run(s, run).starts, j) == Count(s.starts, j) + StartsIn(s, run, j)
    decreases |run|
  {
    if run != [] {
      StartsStep(s, run[0], j);
      StartsAreCounted(Next(s, run[0]), run[1..], j);
    }
  }

  lemma StartsStep(s: State, a: Step, j: Id)
    requires Enabled(s, a)
    ensures Count(Next(s, a).starts, j) == Count(s.starts, j) + One(a.StartPipeline? && s.tasks[a.t].job == j)
  {}

  /** Whatever is submitted twice, cancelled, crashed or restarted: a pipeline starts at most once per job, and never
      for a job that ended up cancelled. */
  lemma PipelineStartsOnce(s: State, run: seq<Step>, j: Id)
    requires Init(s) && EnabledRun(s, run)
    ensures StartsIn(s, run, j) <= 1
    ensures j in Run(s, run).jobs && Run(s, run).jobs[j].status.Cancelled? ==> StartsIn(s, run, j) == 0
  {
    InitInv(s);
    RunInv(s, run);
    assert StartOk(Run(s, run), j);
    StartsAreCounted(s, run, j);
  }

  // ------------------------------------------------------------------ terminal states

  /** The one update that can move a job out of a terminal state: the final update of a task whose job failed
      meanwhile. */
  predicate Overwrites(s: State, a: Step, j: Id) {
    && a.Commit? && a.t in s.tasks && s.tasks[a.t].phase == Ended(true) && s.tasks[a.t].job == j
    && j in s.jobs && s.jobs[j].status.Failed?
  }

  /** In a reachable state a step changes the status of a finished job exactly when it is that update. */
  lemma TerminalMovesIff(s: State, a: Step, j: Id)
    requires Inv(s) && Enabled(s, a) && j in s.jobs && Terminal(s.jobs[j].status)
    ensures j in Next(s, a).jobs
    ensures Next(s, a).jobs[j].status != s.jobs[j].status <==> Overwrites(s, a, j)
  {
    if a.Commit? {
      CommitMoves(s, a, j);
    } else {
      TerminalKept(s, a, j);
    }
  }

  lemma CommitMoves(s: State, a: Step, j: Id)
    requires ClaimsOk(s.tasks, s.jobs) && Enabled(s, a) && a.Commit? && j in s.jobs && Terminal(s.jobs[j].status)
    ensures j in Next(s, a).jobs
    ensures Next(s, a).jobs[j].status != s.jobs[j].status <==> Overwrites(s, a, j)
  {}

  lemma TerminalKept(s: State, a: Step, j: Id)
    requires Enabled(s, a) && j in s.jobs && Terminal(s.jobs[j].status) && !a.Commit?
    ensures j in Next(s, a).jobs && Next(s, a).jobs[j].status == s.jobs[j].status
  {}

  /** Success and cancellation are final in every run. */
  lemma {:induction false} SuccessIsFinal(s: State, run: seq<Step>, j: Id)
    requires Inv(s) && EnabledRun(s, run) && j in s.jobs && (s.jobs[j].status.Succeeded? || s.jobs[j].status.Cancelled?)
    ensures j in Run(s, run).jobs && Run(s, run).jobs[j].status == s.jobs[j].status
    decreases |run|
  {
    if run != [] {
      NextInv(s, run[0]);
      TerminalMovesIff(s, run[0], j);
      SuccessIsFinal(Next(s, run[0]), run[1..], j);
    }
  }

  /** No task works on a job that somebody else has ended. */
  ghost predicate OwnersRunning(s: State) {
    forall t :: t in s.tasks && Owns(s.tasks[t].phase) ==>
        s.tasks[t].job in s.jobs && s.jobs[s.tasks[t].job].status.Running?
  }

  /** A crashed task records its failure on a job that another task is running. */
  predicate Clobbers(s: State, a: Step, u: Id) {
    && a.FinishCrashed? && a.t in s.tasks
    && u in s.tasks && u != a.t && Owns(s.tasks[u].phase) && s.tasks[u].job == s.tasks[a.t].job
  }

  /** That is the only step that breaks the agreement. */
  lemma OwnersRunningIff(s: State, a: Step)
    requires Inv(s) && Enabled(s, a) && OwnersRunning(s)
    ensures OwnersRunning(Next(s, a)) <==> !exists u :: Clobbers(s, a, u)
  {
    if u :| Clobbers(s, a, u) {
      ClobberBreaks(s, a, u);
    } else {
      NoClobberKeeps(s, a);
    }
  }

  lemma ClobberBreaks(s: State, a: Step, u: Id)
    requires Enabled(s, a) && OwnersRunning(s) && Clobbers(s, a, u)
    ensures !OwnersRunning(Next(s, a))
  {
    var n := Next(s, a);
    assert u in n.tasks && n.tasks[u] == s.tasks[u];
    assert n.jobs[s.tasks[u].job].status.Failed?;
  }

  lemma NoClobberKeeps(s: State, a: Step)
    requires ClaimsOk(s.tasks, s.jobs) && Enabled(s, a) && OwnersRunning(s) && !exists u :: Clobbers(s, a, u)
    ensures OwnersRunning(Next(s, a))
  {
    if a.Start? {
      StartWaits(s, a);
    } else {
      var n := Next(s, a);
      forall t | t in n.tasks && Owns(n.tasks[t].phase)
        ensures n.tasks[t].job in n.jobs && n.jobs[n.tasks[t].job].status.Running?
      {
        OwnerRuns(s, a, t);
      }
    }
  }

  lemma OwnerRuns(s: State, a: Step, t: Id)
    requires ClaimsOk(s.tasks, s.jobs) && Enabled(s, a) && OwnersRunning(s) && !a.Start? && !Clobbers(s, a, t)
    requires t in Next(s, a).tasks && Owns(Next(s, a).tasks[t].phase)
    ensures var j := Next(s, a).tasks[t].job; j in Next(s, a).jobs && Next(s, a).jobs[j].status.Running?
  {
    TaskMoves(s, a, t);
    if a == Claim(t) {
      ClaimTakes(s, t);
    } else {
      var j := s.tasks[t].job;
      OwnerUndisturbed(s, a, t);
      StaysRunning(s, a, j);
    }
  }

  predicate Ends(s: State, a: Step, j: Id) {
    match a
    case Unavailable(u) => u in s.tasks && s.tasks[u].job == j
    case Commit(u, _) => u in s.tasks && s.tasks[u].job == j
    case FinishCrashed(u) => u in s.tasks && s.tasks[u].job == j
    case Start(_) => true
    case _ => false
  }

  lemma OwnerUndisturbed(s: State, a: Step, t: Id)
    requires ClaimsOk(s.tasks, s.jobs) && Enabled(s, a) && !a.Start? && !Clobbers(s, a, t)
    requires t in s.tasks && Owns(s.tasks[t].phase) && t in Next(s, a).tasks && Owns(Next(s, a).tasks[t].phase)
    ensures !Ends(s, a, s.tasks[t].job)
  {}

  lemma StaysRunning(s: State, a: Step, j: Id)
    requires Enabled(s, a) && j in s.jobs && s.jobs[j].status.Running? && !Ends(s, a, j)
    ensures j in Next(s, a).jobs && Next(s, a).jobs[j].status.Running?
  {}

  // ---- the condition a caller can keep: do not submit a job that still has a task

  ghost predicate SubmitsOnce(s: State, a: Step) {
    a.Submit? ==> forall t :: t in s.tasks ==> s.tasks[t].job != a.j
  }

  ghost predicate SubmitsOnceRun(s: State, run: seq<Step>)
    requires EnabledRun(s, run)
    decreases |run|
  {
    run == [] || (SubmitsOnce(s, run[0]) && SubmitsOnceRun(Next(s, run[0]), run[1..]))
  }

  ghost predicate OneTaskPerJob(s: State) {
    forall t, u :: t in s.tasks && u in s.tasks && t != u ==> s.tasks[t].job != s.tasks[u].job
  }

  lemma OneTaskPerJobNext(s: State, a: Step)
    requires Enabled(s, a) && SubmitsOnce(s, a) && OneTaskPerJob(s)
    ensures OneTaskPerJob(Next(s, a))
  {
    var n := Next(s, a);
    if !a.Start? {
      forall t, u | t in n.tasks && u in n.tasks && t != u ensures n.tasks[t].job != n.tasks[u].job {
        TaskMoves(s, a, t);
        TaskMoves(s, a, u);
      }
    }
  }

  /** With single submission a finished job keeps its state for ever, whatever crashes or restarts. */
  lemma {:induction false} TerminalIsFinal(s: State, run: seq<Step>, j: Id)
    requires Inv(s) && OwnersRunning(s) && OneTaskPerJob(s) && EnabledRun(s, run) && SubmitsOnceRun(s, run)
    requires j in s.jobs && Terminal(s.jobs[j].status)
    ensures j in Run(s, run).jobs && Run(s, run).jobs[j].status == s.jobs[j].status
    decreases |run|
  {
    if run != [] {
      SingleSubmissionStep(s, run[0]);
      TerminalMovesIff(s, run[0], j);
      TerminalIsFinal(Next(s, run[0]), run[1..], j);
    }
  }

  lemma SingleSubmissionStep(s: State, a: Step)
    requires Inv(s) && OwnersRunning(s) && OneTaskPerJob(s) && Enabled(s, a) && SubmitsOnce(s, a)
    ensures Inv(Next(s, a)) && OwnersRunning(Next(s, a)) && OneTaskPerJob(Next(s, a))
  {
    NextInv(s, a);
    OwnersRunningIff(s, a);
    OneTaskPerJobNext(s, a);
  }

  /** Those conditions hold in every state that single submission reaches. */
  lemma {:induction false} SingleSubmissionRun(s: State, run: seq<Step>)
    requires Inv(s) && OwnersRunning(s) && OneTaskPerJob(s) && EnabledRun(s, run) && SubmitsOnceRun(s, run)
    ensures Inv(Run(s, run)) && OwnersRunning(Run(s, run)) && OneTaskPerJob(Run(s, run))
    decreases |run|
  {
    if run != [] {
      SingleSubmissionStep(s, run[0]);
      SingleSubmissionRun(Next(s, run[0]), run[1..]);
    }
  }

  // ------------------------------------------------------------------ progress

  lemma ProgressStep(s: State, a: Step, j: Id)
    requires Inv(s) && Enabled(s, a) && j in s.jobs
    ensures j in Next(s, a).jobs && s.jobs[j].progress <= Next(s, a).jobs[j].progress
  {
    ProgressRises(s, a, j);
  }

  lemma ProgressRises(s: State, a: Step, j: Id)
    requires ProgressOk(s) && Enabled(s, a) && j in s.jobs
    ensures j in Next(s, a).jobs && s.jobs[j].progress <= Next(s, a).jobs[j].progress
  {}

  /** Progress never goes back, not even with callbacks that arrive late or after a restart. */
  lemma {:induction false} ProgressNeverDrops(s: State, run: seq<Step>, j: Id)
    requires Inv(s) && EnabledRun(s, run) && j in s.jobs
    ensures j in Run(s, run).jobs && s.jobs[j].progress <= Run(s, run).jobs[j].progress <= 100
    decreases |run|
  {
    if run != [] {
      NextInv(s, run[0]);
      ProgressStep(s, run[0], j);
      ProgressNeverDrops(Next(s, run[0]), run[1..], j);
    }
  }

  // ------------------------------------------------------------------ usage

  /** The usage counter of an organization is the number of its succeeded jobs. */
  lemma UsageIsSuccesses(s: State, run: seq<Step>, o: Id)
    requires Init(s) && EnabledRun(s, run)
    ensures Count(Run(s, run).usage, o) == |SucceededOf(Run(s, run).jobs, o)|
  {
    InitInv(s);
    RunInv(s, run);
  }

  // ------------------------------------------------------------------ recovery

  /** After a restart nothing is running, what was waiting waits again with one task each, and all else is as it was. */
  lemma StartRecovers(s: State, names: map<Id, Id>)
    requires Inv(s) && Enabled(s, Start(names))
    ensures var n := Next(s, Start(names));
      && n.up && n.jobs.Keys == s.jobs.Keys
      && (forall j :: j in s.jobs ==> !n.jobs[j].status.Running?)
      && (forall j :: j in s.jobs && s.jobs[j].status.Running? ==> n.jobs[j] == s.jobs[j].(status := Failed))
      && (forall j :: j in s.jobs && !s.jobs[j].status.Running? ==> n.jobs[j] == s.jobs[j])
      && (forall j :: j in s.jobs && s.jobs[j].status.Queued? ==>
            j in names && names[j] in n.tasks && n.tasks[names[j]] == Task(j, s.jobs[j].org, Waiting))
      && (forall t :: t in n.tasks ==> n.tasks[t].job in QueuedJobs(n))
      && OneTaskPerJob(n)
  {
    var n := Next(s, Start(names));
    forall j | j in s.jobs && s.jobs[j].status.Queued?
      ensures j in names && names[j] in n.tasks && n.tasks[names[j]] == Task(j, s.jobs[j].org, Waiting)
    {
      assert j in QueuedJobs(s);
      assert names[j] in names.Values;
      assert JobNamed(names, names[j]) == j;
    }
    forall t | t in n.tasks ensures n.tasks[t].job in QueuedJobs(n) {
      assert JobNamed(names, t) in QueuedJobs(s);
    }
  }

  // ------------------------------------------------------------------ no deadlock

  /** The run continues with tasks only: nothing is created, submitted, cancelled, stopped or restarted. */
  ghost predicate OnlyTasks(run: seq<Step>) {
    forall i :: 0 <= i < |run| ==> Touched(run[i]).Some? && !run[i].Submit? && !run[i].Fault? && !run[i].LoseTask?
  }

  ghost predicate Leads(s: State, run: seq<Step>, n: State) {
    EnabledRun(s, run) && Run(s, run) == n && OnlyTasks(run)
  }

  lemma Append(s: State, run: seq<Step>, m: State, a: Step)
    requires Leads(s, run, m) && Enabled(m, a) && Touched(a).Some? && !a.Submit? && !a.Fault? && !a.LoseTask?
    ensures Leads(s, run + [a], Next(m, a))
  {
    Joined(s, run, [a]);
  }

  lemma {:induction false} Joined(s: State, first: seq<Step>, second: seq<Step>)
    requires EnabledRun(s, first) && EnabledRun(Run(s, first), second)
    ensures EnabledRun(s, first + second) && Run(s, first + second) == Run(Run(s, first), second)
    decreases |first|
  {
    if first == [] {
      assert first + second == second;
    } else {
      assert (first + second)[1..] == first[1..] + second;
      Joined(Next(s, first[0]), first[1..], second);
    }
  }

  lemma Chained(s: State, first: seq<Step>, m: State, second: seq<Step>, n: State)
    requires Leads(s, first, m) && Leads(m, second, n)
    ensures Leads(s, first + second, n)
  {
    Joined(s, first, second);
  }

  /** A task inside the semaphore can always go on to its end, whatever the others do. */
  lemma Finish(s: State, t: Id) returns (run: seq<Step>, n: State)
    requires s.up && t in s.tasks && HoldsSlot(s.tasks[t].phase)
    ensures Leads(s, run, n) && n.up && n.tasks == s.tasks - {t}
  {
    run, n := [], s;
    if n.tasks[t].phase.Entered? {
      run, n := [Claim(t)], Next(s, Claim(t));
      assert Leads(s, run, n) by { assert EnabledRun(n, []) && run[1..] == []; }
      if t !in n.tasks { return; }
    }
    var rest, last := FinishClaimed(n, t);
    Chained(s, run, n, rest, last);
    assert last.tasks == s.tasks - {t} by { assert n.tasks - {t} == s.tasks - {t}; }
    run, n := run + rest, last;
  }

  lemma FinishClaimed(s: State, t: Id) returns (run: seq<Step>, n: State)
    requires s.up && t in s.tasks && Owns(s.tasks[t].phase)
    ensures Leads(s, run, n) && n.up && n.tasks == s.tasks - {t}
    decreases if s.tasks[t].phase.Claimed? then 2 else if s.tasks[t].phase.Piping? then 1 else 0
  {
    var a := if s.tasks[t].phase.Claimed? then StartPipeline(t)
             else if s.tasks[t].phase.Piping? then EndPipeline(t, true) else Commit(t, false);
    Step1(s, a);
    OwnerMoves(s, t);
    run, n := [a], Next(s, a);
    if !a.Commit? {
      var rest, last := FinishClaimed(n, t);
      Chained(s, run, n, rest, last);
      assert n.tasks - {t} == s.tasks - {t} by { OnlyTouched(s, a); }
      run, n := run + rest, last;
    }
  }

  lemma OwnerMoves(s: State, t: Id)
    requires s.up && t in s.tasks && Owns(s.tasks[t].phase)
    ensures s.tasks[t].phase.Claimed? ==>
        var n := Next(s, StartPipeline(t)); n.up && t in n.tasks && n.tasks[t].phase.Piping?
    ensures s.tasks[t].phase.Piping? ==>
        var n := Next(s, EndPipeline(t, true)); n.up && t in n.tasks && n.tasks[t].phase.Ended?
    ensures s.tasks[t].phase.Ended? ==> var n := Next(s, Commit(t, false)); n.up && n.tasks == s.tasks - {t}
  {}

  lemma Step1(s: State, a: Step)
    requires Enabled(s, a) && Touched(a).Some? && !a.Submit? && !a.Fault? && !a.LoseTask?
    ensures Leads(s, [a], Next(s, a))
  {
    Append(s, [], s, a);
    assert [] + [a] == [a];
  }

  /** Some task is at its end, or can be brought there. */
  lemma FinishOne(s: State) returns (run: seq<Step>, n: State, t: Id)
    requires Inv(s) && s.up && s.tasks != map[]
    ensures Leads(s, run, n) && n.up && t in s.tasks && n.tasks == s.tasks - {t}
  {
    if u :| u in s.tasks && s.tasks[u].phase.Crashed? {
      t, run, n := u, [FinishCrashed(u)], Next(s, FinishCrashed(u));
      Step1(s, FinishCrashed(u));
    } else if u :| u in s.tasks && HoldsSlot(s.tasks[u].phase) {
      t := u;
      run, n := Finish(s, t);
    } else {
      run, n, t := Admit(s);
    }
  }

  /** With nobody inside the semaphore there is a free slot, and a task that holds its organization's lock or can take
      it. */
  lemma LockHolder(s: State) returns (run: seq<Step>, n: State, t: Id)
    requires LocksOk(s.tasks, s.locks) && s.up && s.tasks != map[]
    requires forall u :: u in s.tasks ==> s.tasks[u].phase.Waiting? || s.tasks[u].phase.Locked?
    ensures Leads(s, run, n) && n.up && n.free == s.free && t in s.tasks && In(n, t, Locked)
        && n.tasks - {t} == s.tasks - {t}
  {
    t :| t in s.tasks;
    run, n := [], s;
    if s.tasks[t].phase.Waiting? {
      if s.tasks[t].org in s.locks {
        t := s.locks[s.tasks[t].org];
      } else {
        Step1(s, TakeLock(t));
        OnlyTouched(s, TakeLock(t));
        run, n := [TakeLock(t)], Next(s, TakeLock(t));
      }
    }
  }

  lemma Enter(s: State, t: Id) returns (run: seq<Step>, n: State)
    requires s.up && In(s, t, Locked) && s.free > 0
    ensures Leads(s, run, n) && n.up && n.tasks == s.tasks - {t}
  {
    Step1(s, TakeSlot(t));
    OnlyTouched(s, TakeSlot(t));
    var m := Next(s, TakeSlot(t));
    var rest, last := Finish(m, t);
    Chained(s, [TakeSlot(t)], m, rest, last);
    run, n := [TakeSlot(t)] + rest, last;
  }

  lemma Admit(s: State) returns (run: seq<Step>, n: State, t: Id)
    requires LocksOk(s.tasks, s.locks) && SlotsOk(s) && s.up && s.tasks != map[]
    requires forall u :: u in s.tasks ==> s.tasks[u].phase.Waiting? || s.tasks[u].phase.Locked?
    ensures Leads(s, run, n) && n.up && t in s.tasks && n.tasks == s.tasks - {t}
  {
    assert Slots(s.tasks) == {};
    var first, m;
    first, m, t := LockHolder(s);
    var rest, last := Enter(m, t);
    Chained(s, first, m, rest, last);
    run, n := first + rest, last;
  }

  lemma {:induction false} Drain(s: State, k: nat) returns (run: seq<Step>, n: State)
    requires Inv(s) && s.up && |s.tasks.Keys| == k
    ensures Leads(s, run, n) && n.tasks == map[]
    decreases k
  {
    if k == 0 {
      run, n := [], s;
    } else {
      var first, m, t := FinishOne(s);
      RunInv(s, first);
      OneFewer(s.tasks, m.tasks, t);
      var rest, last := Drain(m, k - 1);
      Chained(s, first, m, rest, last);
      run, n := first + rest, last;
    }
  }

  lemma OneFewer(before: map<Id, Task>, after: map<Id, Task>, t: Id)
    requires t in before && after == before - {t}
    ensures |after.Keys| == |before.Keys| - 1
  {
    assert after.Keys == before.Keys - {t};
  }

  /** No set of tasks can block itself on the locks and the semaphore: from every reachable state the tasks alone can
      go on until all of them are done. */
  lemma TasksCanDrain(s: State, past: seq<Step>)
    requires Init(s) && EnabledRun(s, past) && Run(s, past).up
    ensures exists run, n :: Leads(Run(s, past), run, n) && n.tasks == map[]
  {
    InitInv(s);
    RunInv(s, past);
    var run, n := Drain(Run(s, past), |Run(s, past).tasks.Keys|);
  }

  // ------------------------------------------------------------------ when a finished job does change

  // A job is submitted twice and a task crashes before its claim: the crash is recorded on the job the other task is
  // running, and the final update of that other task then turns the failed job into a succeeded one.

  lemma TwoSteps(s: State, a: Step, b: Step)
    requires Enabled(s, a) && Enabled(Next(s, a), b)
    ensures EnabledRun(s, [a, b]) && Run(s, [a, b]) == Next(Next(s, a), b)
  {
    var m := Next(s, a);
    assert [b][1..] == [];
    assert Run(m, [b]) == Run(Next(m, b), []);
    assert [a, b][1..] == [b];
    assert Run(s, [a, b]) == Run(m, [b]);
  }

  lemma EmptyStart(s: State)
    requires Init(s)
    ensures Enabled(s, Start(map[])) && Next(s, Start(map[])) == s.(up := true)
  {
    assert QueuedJobs(s) == {};
    var n := Next(s, Start(map[]));
    assert n.tasks == map[];
    assert n.jobs == map[];
  }

  lemma Begun(s: State) returns (n: State)
    requires Init(s)
    ensures EnabledRun(s, [Start(map[]), CreateJob(1, 7)]) && Run(s, [Start(map[]), CreateJob(1, 7)]) == n
    ensures n == s.(up := true, jobs := map[1 := Job(7, Queued, 0)])
  {
    EmptyStart(s);
    var m := s.(up := true);
    TwoSteps(s, Start(map[]), CreateJob(1, 7));
    n := Next(m, CreateJob(1, 7));
  }

  lemma Submitted(s: State) returns (n: State)
    requires s.up && s.jobs == map[1 := Job(7, Queued, 0)] && s.tasks == map[]
    ensures EnabledRun(s, [Submit(1, 10), Submit(1, 11)]) && Run(s, [Submit(1, 10), Submit(1, 11)]) == n
    ensures n == s.(tasks := map[10 := Task(1, 7, Waiting), 11 := Task(1, 7, Waiting)])
  {
    TwoSteps(s, Submit(1, 10), Submit(1, 11));
    n := Next(Next(s, Submit(1, 10)), Submit(1, 11));
  }

  lemma Inside(s: State, t: Id) returns (n: State)
    requires s.up && s.free > 0 && t in s.tasks && s.tasks[t].phase.Waiting? && s.locks == map[]
    ensures EnabledRun(s, [TakeLock(t), TakeSlot(t)]) && Run(s, [TakeLock(t), TakeSlot(t)]) == n
    ensures n == s.(free := s.free - 1, locks := map[s.tasks[t].org := t],
        tasks := s.tasks[t := s.tasks[t].(phase := Entered)])
  {
    TwoSteps(s, TakeLock(t), TakeSlot(t));
    n := Next(Next(s, TakeLock(t)), TakeSlot(t));
    assert n.tasks == s.tasks[t := s.tasks[t].(phase := Entered)];
  }

  lemma FaultBeforeClaim(s: State, t: Id) returns (n: State)
    requires s.up && t in s.tasks && s.tasks[t].phase.Entered? && s.locks == map[s.tasks[t].org := t]
    ensures EnabledRun(s, [Fault(t)]) && Run(s, [Fault(t)]) == n
    ensures n == s.(free := s.free + 1, locks := map[], tasks := s.tasks[t := s.tasks[t].(phase := Crashed(false))])
  {
    n := Next(s, Fault(t));
    assert [Fault(t)][1..] == [];
    assert n.locks == map[];
  }

  lemma ClaimedAndFailed(s: State, t: Id, u: Id) returns (n: State)
    requires s.up && t in s.tasks && u in s.tasks && t != u && s.tasks[t] == Task(1, 7, Entered)
    requires s.tasks[u] == Task(1, 7, Crashed(false))
    requires s.jobs == map[1 := Job(7, Queued, 0)]
    ensures EnabledRun(s, [Claim(t), FinishCrashed(u)]) && Run(s, [Claim(t), FinishCrashed(u)]) == n
    ensures n.up && n.jobs == map[1 := Job(7, Failed, 100)] && t in n.tasks && n.tasks[t] == Task(1, 7, Claimed)
  {
    TwoSteps(s, Claim(t), FinishCrashed(u));
    n := Next(Next(s, Claim(t)), FinishCrashed(u));
  }

  lemma PipelineEnds(s: State, t: Id) returns (n: State)
    requires s.up && t in s.tasks && s.tasks[t].phase.Claimed?
    ensures EnabledRun(s, [StartPipeline(t), EndPipeline(t, true)])
        && Run(s, [StartPipeline(t), EndPipeline(t, true)]) == n
    ensures n.up && n.jobs == s.jobs && t in n.tasks && n.tasks[t] == s.tasks[t].(phase := Ended(true))
  {
    TwoSteps(s, StartPipeline(t), EndPipeline(t, true));
    n := Next(Next(s, StartPipeline(t)), EndPipeline(t, true));
  }

  lemma CommitSucceeds(s: State, t: Id) returns (n: State)
    requires s.up && s.jobs == map[1 := Job(7, Failed, 100)] && t in s.tasks && s.tasks[t] == Task(1, 7, Ended(true))
    ensures EnabledRun(s, [Commit(t, false)]) && Run(s, [Commit(t, false)]) == n
        && n.jobs == map[1 := Job(7, Succeeded, 100)]
  {
    n := Next(s, Commit(t, false));
    assert [Commit(t, false)][1..] == [];
  }

  /** A reachable state with a failed job, and a continuation that leaves the same job succeeded. */
  lemma FailedJobCanSucceed(s: State) returns (past: seq<Step>, future: seq<Step>)
    requires Init(s)
    ensures EnabledRun(s, past) && EnabledRun(Run(s, past), future)
    ensures var m := Run(s, past); var n := Run(m, future);
      1 in m.jobs && 1 in n.jobs && m.jobs[1].status == Failed && n.jobs[1].status == Succeeded
  {
    past := [Start(map[]), CreateJob(1, 7)];
    var n := Begun(s);
    var m := Submitted(n);
    Joined(s, past, [Submit(1, 10), Submit(1, 11)]);
    past := past + [Submit(1, 10), Submit(1, 11)];
    n := Inside(m, 10);
    Joined(s, past, [TakeLock(10), TakeSlot(10)]);
    past := past + [TakeLock(10), TakeSlot(10)];
    m := FaultBeforeClaim(n, 10);
    Joined(s, past, [Fault(10)]);
    past := past + [Fault(10)];
    n := Inside(m, 11);
    Joined(s, past, [TakeLock(11), TakeSlot(11)]);
    past := past + [TakeLock(11), TakeSlot(11)];
    m := ClaimedAndFailed(n, 11, 10);
    Joined(s, past, [Claim(11), FinishCrashed(10)]);
    past := past + [Claim(11), FinishCrashed(10)];
    future := [StartPipeline(11), EndPipeline(11, true)] + [Commit(11, false)];
    var ended := PipelineEnds(m, 11);
    n := CommitSucceeds(ended, 11);
    Joined(m, [StartPipeline(11), EndPipeline(11, true)], [Commit(11, false)]);
  }
}
