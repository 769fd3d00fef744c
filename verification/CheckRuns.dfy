/** The states of an upload whose only task is its existence check, and the steps between them:
    the beginnings of the runs that ServerCounterexample and SchedulerDeadlock construct. */
module CheckRuns {
  import opened TaskGroups
  import opened Fanout
  import opened Server

  /** A run whose only task is the check. */
  function OnlyTask(job: Job, pc: Pc<Fanout.Work>, stage: Stage, isNew: bool): Run {
    Run(Group(GroupState.Running, 1, map[Check := pc], Finished, false, Nobody, [], {}),
        map[Check := stage], isNew, false, job.extension, [], map[])
  }

  function Looking(job: Job, pc: Pc<Fanout.Work>, check: CheckPc): Run {
    OnlyTask(job, pc, Checking(check), false)
  }

  /** The step `act` of one run. */
  predicate Leads(job: Job, r: Run, act: Act, r': Run) {
    ActEnabled(job, r, act) && Perform(job, r, act) == r' && IsWork(act)
  }

  function Called(job: Job, caller: Caller<Fanout.Work>): Run {
    InitRun(job).(group := Init<Fanout.Work>().(caller := caller))
  }

  function CountedRun(job: Job): Run {
    var r := Looking(job, Enqueuing(FromCaller), FirstLook);
    r.(group := r.group.(caller := Counted(Check)))
  }

  /** The thread that creates the group adds the check. */
  lemma CallerLeads(job: Job)
    ensures Leads(job, InitRun(job), Inner(CallerLoad), Called(job, Loaded))
    ensures Leads(job, Called(job, Loaded), Inner(CallerFetch(Check)), CountedRun(job))
    ensures Leads(job, CountedRun(job), Inner(CallerPush), Looking(job, Queued, FirstLook))
  {
    assert map[Check := Pc<Fanout.Work>.Enqueuing(FromCaller)][Check := Queued] == map[Check := Pc<Fanout.Work>.Queued];
  }

  /** A worker takes the check and starts it. */
  lemma PopLeads(job: Job)
    ensures Leads(job, Looking(job, Queued, FirstLook), Inner(Pop(Check)), Looking(job, Starting, FirstLook))
    ensures Leads(job, Looking(job, Starting, FirstLook), Inner(Wrapper(Check)), Looking(job, Body, FirstLook))
  {
    assert map[Check := Pc<Fanout.Work>.Queued][Check := Starting] == map[Check := Starting];
    assert map[Check := Pc<Fanout.Work>.Starting][Check := Body] == map[Check := Body];
  }

  /** The check goes on to its next stage. */
  lemma DecideLeads(job: Job, from: CheckPc, to: Stage)
    requires CanDecide(to)
    ensures ActEnabled(job, Looking(job, Body, from), Decide(to))
    ensures Perform(job, Looking(job, Body, from), Decide(to)) == OnlyTask(job, Body, to, to.CheckAdds?)
  {
    assert map[Check := Checking(from)][Check := to] == map[Check := to];
  }
}
