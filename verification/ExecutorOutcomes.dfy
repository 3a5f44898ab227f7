/** What becomes of a job: which step moves its row and how, and that every job that is worked on comes to an end. */
module ExecutorOutcomes {
  import opened Common
  import opened Executor
  import opened ExecutorInvariant
  import opened ExecutorTheorems

  // ------------------------------------------------------------------ the life of a row

  /** The task of the step works on job `j`. */
  predicate About(s: State, t: Id, j: Id) { t in s.tasks && s.tasks[t].job == j }

  /** The step records a failure that the conditional update lets through while the job is queued or running. */
  predicate RecordsFailure(s: State, a: Step, j: Id) {
    (a.Unavailable? || a.FinishCrashed?) && About(s, a.t, j)
  }

  /** The row of a job after a step. */
  function RowAfter(s: State, a: Step, j: Id): Job
    requires j in s.jobs && Enabled(s, a)
  {
    var row := s.jobs[j];
    match a
    case Cancel(i) => if i == j then CancelRow(row) else row
    case Claim(t) => if About(s, t, j) && row.status.Queued? then row.(status := Running, progress := 5) else row
    case Unavailable(t) => if About(s, t, j) then FinishRow(row) else row
    case FinishCrashed(t) => if About(s, t, j) then FinishRow(row) else row
    case DeliverProgress(i, percent) => if i == j then ProgressRow(row, percent) else row
    case Commit(t, _) => if About(s, t, j) then EndRow(row, s.tasks[t].phase.ok) else row
    case Start(_) => AbandonRow(row)
    case _ => row
  }

  lemma RowAfterIs(s: State, a: Step, j: Id)
    requires Enabled(s, a) && j in s.jobs
    ensures j in Next(s, a).jobs && Next(s, a).jobs[j] == RowAfter(s, a, j)
  {
    if a.Start? { RowAfterStart(s, a, j); } else { RowAfterUpdate(s, a, j); }
  }

  lemma RowAfterStart(s: State, a: Step, j: Id)
    requires Enabled(s, a) && j in s.jobs && a.Start?
    ensures j in Next(s, a).jobs && Next(s, a).jobs[j] == RowAfter(s, a, j)
  {}

  lemma RowAfterUpdate(s: State, a: Step, j: Id)
    requires Enabled(s, a) && j in s.jobs && !a.Start?
    ensures j in Next(s, a).jobs && Next(s, a).jobs[j] == RowAfter(s, a, j)
  {}

  /** The statuses a row can move to, each by exactly these steps. */
  lemma StatusMoves(s: State, a: Step, j: Id)
    requires Inv(s) && Enabled(s, a) && j in s.jobs
    ensures j in Next(s, a).jobs
    ensures var was, now := s.jobs[j].status, Next(s, a).jobs[j].status;
      && (now.Queued? ==> was == now)
      && (was != now && now.Cancelled? <==> a == Cancel(j) && was.Queued?)
      && (was != now && now.Running? <==> a.Claim? && About(s, a.t, j) && was.Queued?)
      && (was != now && now.Succeeded? <==> a.Commit? && About(s, a.t, j) && s.tasks[a.t].phase == Ended(true))
      && (was != now && now.Failed? <==>
            || (RecordsFailure(s, a, j) && (was.Queued? || was.Running?))
            || (a.Commit? && About(s, a.t, j) && s.tasks[a.t].phase == Ended(false) && was.Running?)
            || (a.Start? && was.Running?))
  {
    RowAfterIs(s, a, j);
    if a.Commit? { CommitLeaves(s, a, j); } else { RowStatusMoves(s, a, j); }
  }

  lemma RowStatusMoves(s: State, a: Step, j: Id)
    requires Enabled(s, a) && j in s.jobs && !a.Commit?
    ensures var was, now := s.jobs[j].status, RowAfter(s, a, j).status;
      && (now.Queued? ==> was == now)
      && (was != now && now.Cancelled? <==> a == Cancel(j) && was.Queued?)
      && (was != now && now.Running? <==> a.Claim? && About(s, a.t, j) && was.Queued?)
      && (now.Succeeded? ==> was == now)
      && (was != now && now.Failed? <==>
            (RecordsFailure(s, a, j) && (was.Queued? || was.Running?)) || (a.Start? && was.Running?))
  {}

  /** The final update: the outcome of the pipeline, at 100 percent, and one more use for a success only. */
  lemma CommitLeaves(s: State, a: Step, j: Id)
    requires ClaimsOk(s.tasks, s.jobs) && Enabled(s, a) && a.Commit? && j in s.jobs
    ensures var n, task := Next(s, a), s.tasks[a.t];
      && j in n.jobs && (task.job != j ==> n.jobs[j] == s.jobs[j])
      && (task.job == j ==>
            n.jobs[j] == Job(s.jobs[j].org, if task.phase.ok then Succeeded else Failed, 100)
                && !s.jobs[j].status.Queued?)
      && (forall o :: Count(n.usage, o) == Count(s.usage, o) + One(task.phase.ok && o == task.org))
  {}

  /** What a step does to the progress of a job. */
  lemma ProgressMoves(s: State, a: Step, j: Id)
    requires Enabled(s, a) && j in s.jobs && j in Next(s, a).jobs
    ensures var was, now := s.jobs[j], Next(s, a).jobs[j];
      && (a.Claim? && About(s, a.t, j) && was.status.Queued? ==> now.progress == 5)
      && (a.DeliverProgress? && a.j == j && was.status.Running? ==>
            now.progress == if was.progress < a.percent then a.percent else was.progress)
      && (was.status != now.status && (now.status.Succeeded? || (now.status.Failed? && !a.Start?)) ==>
          now.progress == 100)
      && (was.progress != now.progress ==> !Terminal(was.status) || a.Commit?)
  {
    RowAfterIs(s, a, j);
  }

  /** Cancelling a queued job is final, and its pipeline is never started, whatever follows. */
  lemma CancelledNeverStarts(s: State, past: seq<Step>, j: Id, run: seq<Step>)
    requires Init(s) && EnabledRun(s, past)
    requires j in Run(s, past).jobs && Run(s, past).jobs[j].status.Queued?
    requires EnabledRun(Next(Run(s, past), Cancel(j)), run)
    ensures var m := Next(Run(s, past), Cancel(j));
      && j in Run(m, run).jobs && Run(m, run).jobs[j].status.Cancelled?
      && StartsIn(s, past, j) == 0 && StartsIn(m, run, j) == 0
  {
    var m := Run(s, past);
    InitInv(s);
    RunInv(s, past);
    StartsAreCounted(s, past, j);
    assert StartOk(m, j);
    var c := Next(m, Cancel(j));
    NextInv(m, Cancel(j));
    SuccessIsFinal(c, run, j);
    RunInv(c, run);
    assert StartOk(Run(c, run), j) && StartOk(c, j);
    StartsAreCounted(c, run, j);
  }

  // ------------------------------------------------------------------ no job is forgotten

  /** The task will bring the job to an end: it is queued, or this task has claimed it. */
  predicate Attends(s: State, t: Id, j: Id) {
    About(s, t, j) && j in s.jobs && (s.jobs[j].status.Running? ==> HasClaimed(s.tasks[t].phase))
  }

  /** The job has ended, or a task attends to it. */
  ghost predicate Served(s: State, j: Id) {
    j in s.jobs && (Terminal(s.jobs[j].status) || exists t :: Attends(s, t, j))
  }

  /** The steps that can leave an unfinished job without a task: the end of the process, and the loss of its last task
      between a crash and the record of it. */
  ghost predicate Abandons(s: State, a: Step, j: Id) {
    && j in s.jobs && !Terminal(s.jobs[j].status)
    && (a.Stop? || a.Die? || (a.LoseTask? && forall u :: Attends(s, u, j) ==> u == a.t))
  }

  lemma EndedStays(s: State, a: Step, j: Id)
    requires Enabled(s, a) && j in s.jobs && Terminal(s.jobs[j].status)
    ensures j in Next(s, a).jobs && Terminal(Next(s, a).jobs[j].status)
  {
    RowAfterIs(s, a, j);
  }

  lemma AttendedNext(s: State, a: Step, j: Id, t: Id)
    requires ClaimsOk(s.tasks, s.jobs) && Enabled(s, a) && Attends(s, t, j) && !Terminal(s.jobs[j].status)
    requires !a.Start? && !a.Stop? && !a.Die? && a != LoseTask(t)
    ensures var n := Next(s, a);
      j in n.jobs && (Terminal(n.jobs[j].status) || Attends(n, t, j) || (a.Claim? && Attends(n, a.t, j)))
  {
    RowAfterIs(s, a, j);
    if (a.Unavailable? || a.FinishCrashed? || a.Commit?) && About(s, a.t, j) {
      assert Terminal(RowAfter(s, a, j).status);
    } else if a.Claim? && About(s, a.t, j) {
      ClaimAttends(s, a.t, j, t);
    } else {
      TaskKept(s, a, j, t);
    }
  }

  lemma ClaimAttends(s: State, u: Id, j: Id, t: Id)
    requires Enabled(s, Claim(u)) && About(s, u, j) && Attends(s, t, j) && !Terminal(s.jobs[j].status)
    ensures Attends(Next(s, Claim(u)), t, j) || Attends(Next(s, Claim(u)), u, j)
  {}

  lemma TaskKept(s: State, a: Step, j: Id, t: Id)
    requires Enabled(s, a) && About(s, t, j) && !a.Start? && !a.Stop? && !a.Die? && a != LoseTask(t)
    requires !((a.Unavailable? || a.FinishCrashed? || a.Commit? || a.Claim?) && About(s, a.t, j))
    ensures About(Next(s, a), t, j) && (HasClaimed(s.tasks[t].phase) ==> HasClaimed(Next(s, a).tasks[t].phase))
  {}

  lemma RestartServes(s: State, names: map<Id, Id>, j: Id)
    requires Inv(s) && Enabled(s, Start(names)) && j in s.jobs
    ensures Served(Next(s, Start(names)), j)
  {
    var n := Next(s, Start(names));
    StartRecovers(s, names);
    if s.jobs[j].status.Queued? {
      assert Attends(n, names[j], j);
    }
  }

  lemma LosingLeaves(s: State, t: Id, j: Id)
    requires Enabled(s, LoseTask(t)) && j in s.jobs
    ensures Next(s, LoseTask(t)).jobs == s.jobs
    ensures forall u :: Attends(Next(s, LoseTask(t)), u, j) <==> Attends(s, u, j) && u != t
  {}

  /** A job that is served stays so under every step but those. */
  lemma ServedIff(s: State, a: Step, j: Id)
    requires Inv(s) && Enabled(s, a) && Served(s, j)
    ensures Served(Next(s, a), j) <==> !Abandons(s, a, j)
  {
    var n := Next(s, a);
    if Terminal(s.jobs[j].status) {
      EndedStays(s, a, j);
    } else if a.Start? {
      assert false;
    } else if a.Stop? || a.Die? {
      assert n.tasks == map[] && n.jobs == s.jobs;
    } else if a.LoseTask? {
      LosingLeaves(s, a.t, j);
    } else {
      var t :| Attends(s, t, j);
      AttendedNext(s, a, j, t);
    }
  }

  /** None of these steps is in the run. */
  predicate Undisturbed(run: seq<Step>) { forall a :: a in run ==> !a.Stop? && !a.Die? && !a.LoseTask? }

  lemma {:induction false} ServedRun(s: State, run: seq<Step>, j: Id)
    requires Inv(s) && EnabledRun(s, run) && Served(s, j) && Undisturbed(run)
    ensures Served(Run(s, run), j)
    decreases |run|
  {
    if run != [] {
      NextInv(s, run[0]);
      ServedIff(s, run[0], j);
      assert forall a :: a in run[1..] ==> a in run;
      ServedRun(Next(s, run[0]), run[1..], j);
    }
  }

  lemma SubmittedIsServed(s: State, j: Id, t: Id)
    requires Inv(s) && Enabled(s, Submit(j, t)) && s.jobs[j].status.Queued?
    ensures Served(Next(s, Submit(j, t)), j)
  {
    assert Attends(Next(s, Submit(j, t)), t, j);
  }

  /** Unless the process ends or a task is lost, a submitted job is attended to until it has ended: once no task is
      left, it has succeeded, failed or been cancelled. */
  lemma SubmittedJobEnds(s: State, j: Id, t: Id, run: seq<Step>)
    requires Inv(s) && Enabled(s, Submit(j, t)) && s.jobs[j].status.Queued?
    requires EnabledRun(Next(s, Submit(j, t)), run) && Undisturbed(run)
    ensures var n := Run(Next(s, Submit(j, t)), run);
      Served(n, j) && ((forall u :: u in n.tasks ==> n.tasks[u].job != j) ==> Terminal(n.jobs[j].status))
  {
    NextInv(s, Submit(j, t));
    SubmittedIsServed(s, j, t);
    ServedRun(Next(s, Submit(j, t)), run, j);
  }

  /** And it can be brought there from every reachable state by the steps of tasks alone. */
  lemma ServedJobCanEnd(s: State, past: seq<Step>, j: Id) returns (run: seq<Step>, n: State)
    requires Init(s) && EnabledRun(s, past) && Run(s, past).up && Served(Run(s, past), j)
    ensures Leads(Run(s, past), run, n) && j in n.jobs && Terminal(n.jobs[j].status)
  {
    TasksCanDrain(s, past);
    var r, m :| Leads(Run(s, past), r, m) && m.tasks == map[];
    InitInv(s);
    RunInv(s, past);
    assert Undisturbed(r) by {
      forall a: Step | a in r ensures !a.Stop? && !a.Die? && !a.LoseTask? {
        var i :| 0 <= i < |r| && r[i] == a;
      }
    }
    ServedRun(Run(s, past), r, j);
    run, n := r, m;
  }

  lemma SingleStep(s: State, a: Step)
    requires Enabled(s, a)
    ensures EnabledRun(s, [a]) && Run(s, [a]) == Next(s, a)
  {
    assert [a][1..] == [];
    assert EnabledRun(Next(s, a), []) && Run(Next(s, a), []) == Next(s, a);
  }

  /** After a restart no job is forgotten: each has ended, or is queued and can be brought to its end. */
  lemma RestartForgetsNothing(s: State, past: seq<Step>, names: map<Id, Id>, j: Id) returns (run: seq<Step>, n: State)
    requires Init(s) && EnabledRun(s, past) && Enabled(Run(s, past), Start(names)) && j in Run(s, past).jobs
    ensures Leads(Next(Run(s, past), Start(names)), run, n) && j in n.jobs && Terminal(n.jobs[j].status)
  {
    var m := Run(s, past);
    InitInv(s);
    RunInv(s, past);
    RestartServes(m, names, j);
    SingleStep(m, Start(names));
    Joined(s, past, [Start(names)]);
    run, n := ServedJobCanEnd(s, past + [Start(names)], j);
  }
}
