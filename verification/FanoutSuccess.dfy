/** An upload in which nothing has gone wrong can still succeed: from any such state some schedule,
    in which no body throws, leads to `on_finish`. */
module FanoutSuccess {
  import opened TaskGroups
  import TaskGroupInvariant
  import TaskGroupTheorems
  import opened Fanout
  import opened FanoutInvariant
  import opened FanoutTheorems
  import FanoutCapacity
  import opened Server
  import opened CheckRuns
  import ServerInvariant
  import SchedulerTermination
  import SchedulerProgress

  /** No exception is on its way and the check has made its decision. */
  ghost predicate Healthy(r: Run) {
    && !r.group.state.DoneError? && r.group.caller.Finished?
    && (forall w | w in r.group.tasks :: !r.group.tasks[w].Caught?)
    && Check in r.stages && !r.stages[Check].Checking?
  }

  /** The next step of a task, its pop included. */
  function Advance(r: Run, w: Fanout.Work): Act
    requires w in r.group.tasks
  {
    match r.group.tasks[w]
    case Queued => Inner(Pop(w))
    case Body => Op(w)
    case Adding => Fanout.Count(w)
    case Pushing(_) => Hand(w)
    case _ => Inner(Wrapper(w))
  }

  predicate CanAdvance(pc: Pc<Fanout.Work>) {
    !pc.Enqueuing? && !pc.Done?
  }

  lemma AdvanceIsEnabled(job: Job, r: Run, w: Fanout.Work)
    requires RunOk(job, r) && Healthy(r) && w in r.group.tasks && CanAdvance(r.group.tasks[w])
    ensures ActEnabled(job, r, Advance(r, w)) && IsWork(Advance(r, w)) && !SchedulerTermination.IsCaller(Advance(r, w))
  {
    hide RunOk, NextChild, InRange;
    BodiesAreNeverStuck(job, r, w);
    SchedulerProgress.TaskHasStage(job, r, w);
  }

  /** While a task has not ended, some task can take its next step. */
  lemma SomeoneAdvances(job: Job, r: Run) returns (w: Fanout.Work)
    requires RunOk(job, r) && Healthy(r) && exists u :: u in r.group.tasks && !r.group.tasks[u].Done?
    ensures w in r.group.tasks && CanAdvance(r.group.tasks[w])
  {
    FanoutCapacity.RunOkParts(job, r);
    hide RunOk, BodiesOk, TaskGroupInvariant.AddersOk;
    w :| w in r.group.tasks && !r.group.tasks[w].Done?;
    if r.group.tasks[w].Enqueuing? { w := FanoutCapacity.PusherOf(r.group, w); }
  }

  // ---------------------------------------------------------------- health is kept

  /** No exception has ended the group or is about to. */
  ghost predicate Sound(g: Group<Fanout.Work>) {
    !g.state.DoneError? && forall w | w in g.tasks :: !g.tasks[w].Caught?
  }

  lemma WrapperStaysSound(g: Group<Fanout.Work>, w: Fanout.Work)
    requires Sound(g) && Enabled(g, Wrapper(w))
    ensures Sound(WrapperStep(g, w))
  {
    match g.tasks[w]
    case Starting =>
    case LateDecrement =>
    case SkipDecrement =>
    case CaughtDecrement(exchanged) =>
    case Reporting(exchanged) =>
    case Returned =>
    case Zeroing =>
    case Claiming =>
    case Announcing =>
  }

  /** The steps by which a task is added, taken or returns. */
  lemma BodyStaysSound(g: Group<Fanout.Work>, a: Action<Fanout.Work>)
    requires Sound(g) && Enabled(g, a) && !a.Cancel? && !a.CancelCallback? && !a.Throw? && !a.Wrapper?
    requires a.AddTask? ==> !g.state.DoneOk?
    ensures Sound(Step(g, a))
  {
  }

  lemma BodyIsPending(job: Job, r: Run, w: Fanout.Work)
    requires RunOk(job, r) && At(r.group, w, Body)
    ensures !r.group.state.DoneOk?
  {
    TaskGroupInvariant.PendingNotDone(r.group, w);
  }

  lemma OpStaysSound(job: Job, r: Run, w: Fanout.Work)
    requires RunOk(job, r) && Sound(r.group) && ActEnabled(job, r, Op(w))
    ensures Sound(Perform(job, r, Op(w)).group)
  {
    hide RunOk, Sound, BodyOp, KindOk, NextChild, Step, InRange;
    SchedulerProgress.TaskHasStage(job, r, w);
    BodyIsPending(job, r, w);
    if NextChild(r, w).Some? {
      BodyStaysSound(r.group, AddTask(w));
    } else if r.stages[w].Ended? {
      EndedOp(job, r, w);
      BodyStaysSound(r.group, Return(w));
    } else {
      FolderIsThere(job, r, w);
      FanoutCapacity.BodyKeepsGroup(job, r, w);
    }
  }

  lemma FolderIsThere(job: Job, r: Run, w: Fanout.Work)
    requires RunOk(job, r) && ActEnabled(job, r, Op(w))
    ensures w.Save? ==> w.index < |r.dims| && Sized(r.dims[w.index].width, r.dims[w.index].height) in r.tree
  {
    hide RunOk;
    if w.Save? { ParentFoldersComeFirst(job, r, w.index, w.format); }
  }

  lemma CountStaysSound(job: Job, r: Run, w: Fanout.Work)
    requires Sound(r.group) && ActEnabled(job, r, Fanout.Count(w))
    ensures Sound(Perform(job, r, Fanout.Count(w)).group)
  {
    hide Sound, Step, NextChild;
    BodyStaysSound(r.group, Fetch(w, NextChild(r, w).value));
  }

  lemma HandStaysSound(job: Job, r: Run, w: Fanout.Work)
    requires Sound(r.group) && ActEnabled(job, r, Hand(w))
    ensures Sound(Perform(job, r, Hand(w)).group)
  {
    hide Sound, Step;
    BodyStaysSound(r.group, Push(w));
  }

  lemma InnerStaysSound(job: Job, r: Run, a: Action<Fanout.Work>)
    requires Sound(r.group) && ActEnabled(job, r, Inner(a)) && IsWork(Inner(a))
    ensures Sound(Perform(job, r, Inner(a)).group)
  {
    if a.Wrapper? { WrapperStaysSound(r.group, a.task); } else { BodyStaysSound(r.group, a); }
    hide Sound, WrapperStep;
  }

  /** Only a body that throws ends an upload's health: none of its other steps does, its writes
      included. */
  lemma WorkStaysSound(job: Job, r: Run, act: Act)
    requires RunOk(job, r) && Sound(r.group) && ActEnabled(job, r, act) && IsWork(act) && !act.Fail?
    ensures Sound(Perform(job, r, act).group)
  {
    hide RunOk, Sound, Perform, ActEnabled;
    match act
    case Inner(a) => InnerStaysSound(job, r, a);
    case Op(w) => OpStaysSound(job, r, w);
    case Count(w) => CountStaysSound(job, r, w);
    case Hand(w) => HandStaysSound(job, r, w);
  }

  lemma AdvanceStaysSound(job: Job, r: Run, w: Fanout.Work)
    requires RunOk(job, r) && Healthy(r) && w in r.group.tasks && CanAdvance(r.group.tasks[w])
    ensures ActEnabled(job, r, Advance(r, w)) && Sound(Perform(job, r, Advance(r, w)).group)
  {
    assert Sound(r.group) && !Advance(r, w).Fail?;
    hide RunOk, Healthy, Sound, Perform, ActEnabled, Advance, IsWork, CanAdvance;
    AdvanceIsEnabled(job, r, w);
    WorkStaysSound(job, r, Advance(r, w));
  }

  lemma NotCancelled(job: Job, r: Run)
    requires RunOk(job, r) && !r.group.state.DoneError?
    ensures !r.group.winner.Canceller? && !r.group.cancelling
  {
  }

  lemma AdvanceStaysHealthy(job: Job, r: Run, w: Fanout.Work)
    requires Fits(job) && RunOk(job, r) && Healthy(r) && w in r.group.tasks && CanAdvance(r.group.tasks[w])
    ensures ActEnabled(job, r, Advance(r, w)) && IsWork(Advance(r, w))
    ensures var r' := Perform(job, r, Advance(r, w));
      RunOk(job, r') && Healthy(r') && r'.isNew == r.isNew
      && SchedulerTermination.TasksRank(job, r', |job.sizes|) < SchedulerTermination.TasksRank(job, r, |job.sizes|)
  {
    hide RunOk, Fits, Perform, Advance, ActEnabled, IsWork, SchedulerTermination.TasksRank, SchedulerTermination.Lowers, CanAdvance;
    var act := Advance(r, w);
    AdvanceIsEnabled(job, r, w);
    NotCancelled(job, r);
    ActKeepsRunOk(job, r, act);
    AdvanceStaysSound(job, r, w);
    ServerInvariant.WorkKeepsCheck(job, r, act);
    SchedulerTermination.WorkLowers(job, r, act);
    SchedulerTermination.MoverIsWork(job, r, act);
    SchedulerTermination.LowersRank(job, r, Perform(job, r, act), SchedulerTermination.MoverOf(act));
  }

  // ---------------------------------------------------------------- the schedule that succeeds

  predicate AllWork(acts: seq<Act>) {
    forall k | 0 <= k < |acts| :: IsWork(acts[k])
  }

  lemma EndedHasSucceeded(job: Job, r: Run)
    requires RunOk(job, r) && Healthy(r) && forall w | w in r.group.tasks :: r.group.tasks[w].Done?
    ensures r.group.callbacks == [OnFinish]
  {
    NotCancelled(job, r);
    FanoutCapacity.RunOkParts(job, r);
    assert Check in r.group.tasks;
    TaskGroupTheorems.EndedMeansCalledBack(r.group);
  }

  lemma {:induction false} SucceedsFrom(job: Job, r0: Run, acts: seq<Act>) returns (longer: seq<Act>)
    requires Fits(job) && LegalRun(job, r0, acts) && AllWork(acts)
    requires var r := EndOf(job, r0, acts); RunOk(job, r) && Healthy(r)
    ensures LegalRun(job, r0, longer) && AllWork(longer)
    ensures var r, r' := EndOf(job, r0, acts), EndOf(job, r0, longer);
      RunOk(job, r') && r'.group.callbacks == [OnFinish] && r'.isNew == r.isNew
    decreases SchedulerTermination.TasksRank(job, EndOf(job, r0, acts), |job.sizes|)
  {
    hide RunOk, Fits, Healthy, Perform, ActEnabled, IsWork, SchedulerTermination.TasksRank;
    var r := EndOf(job, r0, acts);
    if forall w | w in r.group.tasks :: r.group.tasks[w].Done? {
      EndedHasSucceeded(job, r);
      longer := acts;
    } else {
      var w := SomeoneAdvances(job, r);
      AdvanceStaysHealthy(job, r, w);
      var next := acts + [Advance(r, w)];
      assert next[..|acts|] == acts;
      assert LegalRun(job, r0, next) && EndOf(job, r0, next) == Perform(job, r, Advance(r, w));
      longer := SucceedsFrom(job, r0, next);
    }
  }

  /** A healthy upload can succeed. */
  lemma CanSucceed(job: Job, r: Run) returns (acts: seq<Act>)
    requires Fits(job) && RunOk(job, r) && Healthy(r)
    ensures LegalRun(job, r, acts) && AllWork(acts)
    ensures var r' := EndOf(job, r, acts); RunOk(job, r') && r'.group.callbacks == [OnFinish] && r'.isNew == r.isNew
  {
    hide RunOk, Fits, Healthy;
    assert LegalRun(job, r, []) && EndOf(job, r, []) == r;
    acts := SucceedsFrom(job, r, []);
  }

  lemma OneMore(job: Job, r0: Run, acts: seq<Act>, act: Act, r': Run)
    requires LegalRun(job, r0, acts) && ActEnabled(job, EndOf(job, r0, acts), act)
    requires Perform(job, EndOf(job, r0, acts), act) == r'
    ensures LegalRun(job, r0, acts + [act]) && EndOf(job, r0, acts + [act]) == r'
  {
    hide Perform, ActEnabled;
    assert (acts + [act])[..|acts|] == acts;
  }

  /** The creating thread adds the check, which finds nothing and goes on to add `load_image`. */
  lemma StartsNew(job: Job) returns (acts: seq<Act>)
    ensures LegalRun(job, InitRun(job), acts) && EndOf(job, InitRun(job), acts) == OnlyTask(job, Body, CheckAdds, true)
  {
    CallerLeads(job);
    PopLeads(job);
    DecideLeads(job, FirstLook, CheckAdds);
    hide Leads, Called, CountedRun, Looking, OnlyTask, InitRun, Perform, ActEnabled;
    LeadsOn(job, [], Inner(CallerLoad), Called(job, Loaded));
    acts := [Inner(CallerLoad)];
    assert [] + acts == acts;
    LeadsOn(job, acts, Inner(CallerFetch(Check)), CountedRun(job));
    acts := acts + [Inner(CallerFetch(Check))];
    LeadsOn(job, acts, Inner(CallerPush), Looking(job, Queued, FirstLook));
    acts := acts + [Inner(CallerPush)];
    LeadsOn(job, acts, Inner(Pop(Check)), Looking(job, Starting, FirstLook));
    acts := acts + [Inner(Pop(Check))];
    LeadsOn(job, acts, Inner(Wrapper(Check)), Looking(job, Body, FirstLook));
    acts := acts + [Inner(Wrapper(Check))];
    OneMore(job, InitRun(job), acts, Decide(CheckAdds), OnlyTask(job, Body, CheckAdds, true));
    acts := acts + [Decide(CheckAdds)];
  }

  lemma LeadsOn(job: Job, acts: seq<Act>, act: Act, r': Run)
    requires LegalRun(job, InitRun(job), acts) && Leads(job, EndOf(job, InitRun(job), acts), act, r')
    ensures LegalRun(job, InitRun(job), acts + [act]) && EndOf(job, InitRun(job), acts + [act]) == r'
  {
    hide Perform, ActEnabled;
    OneMore(job, InitRun(job), acts, act, r');
  }

  /** Every upload that fits the counter has a schedule that ends in `on_finish`, and so one that
      leaves the complete result. */
  lemma SomeScheduleSucceeds(job: Job)
    requires Fits(job)
    ensures exists acts ::
      && LegalRun(job, InitRun(job), acts)
      && var r := EndOf(job, InitRun(job), acts); r.isNew && OnFinish in r.group.callbacks && r.tree == TreeOf(job, |job.sizes|)
  {
    var acts := StartsNew(job);
    RunsAreOk(job, acts);
    var r := EndOf(job, InitRun(job), acts);
    assert Healthy(r) && r.isNew;
    hide RunOk, Fits, Healthy, InitRun, OnlyTask, Perform, ActEnabled, TreeOf;
    var more := CanSucceed(job, r);
    Continues(job, InitRun(job), acts, more);
    assert OnFinish in EndOf(job, r, more).group.callbacks;
    ScheduleIndependence(job, EndOf(job, r, more));
  }

  lemma {:induction false} Continues(job: Job, r: Run, a: seq<Act>, b: seq<Act>)
    requires LegalRun(job, r, a) && LegalRun(job, EndOf(job, r, a), b)
    ensures LegalRun(job, r, a + b) && EndOf(job, r, a + b) == EndOf(job, EndOf(job, r, a), b)
  {
    hide Perform, ActEnabled;
    if b == [] {
      assert a + b == a;
    } else {
      Continues(job, r, a, b[..|b| - 1]);
      assert (a + b)[..|a + b| - 1] == a + b[..|b| - 1];
    }
  }
}
