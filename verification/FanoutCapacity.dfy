/** The 16-bit counter and the size of one upload: it is exact in every run exactly if the
    upload's tasks number at most 32767. */
module FanoutCapacity {
  import opened TaskGroups
  import TaskGroupInvariant
  import opened Fanout
  import opened FanoutInvariant
  import opened FanoutTheorems
  import opened Server
  import SchedulerTermination
  import SchedulerProgress

  // ---------------------------------------------------------------- growing to full size

  /** A task that has been added and has not ended. */
  predicate Underway(pc: Pc<Fanout.Work>) {
    pc.Enqueuing? || pc.Queued? || pc.Starting? || pc.Body? || pc.Adding? || pc.Pushing?
  }

  /** Nothing has ended, failed or been cancelled yet. */
  ghost predicate Young(r: Run) {
    && r.group.state.Running? && !r.group.caller.NotCalled?
    && (r.group.caller.Loaded? <==> r.group.tasks == map[])
    && (forall w | w in r.group.tasks :: Underway(r.group.tasks[w]))
    && (Check in r.stages && r.stages[Check].Ended? ==> r.isNew)
  }

  ghost predicate Growing(job: Job, r: Run) {
    RunOk(job, r) && Young(r)
  }

  lemma AllCount(job: Job, r: Run)
    requires Growing(job, r)
    ensures Live(r.group.tasks) == |r.group.tasks|
  {
    assert CountedKeys(r.group.tasks) == r.group.tasks.Keys;
  }

  /** The step that brings a growing upload nearer its full size; none for a task that has
      added all its children. */
  function GrowOf(r: Run, w: Fanout.Work): Option<Act>
    requires w in r.group.tasks && w in r.stages
  {
    match r.group.tasks[w]
    case Queued => Some(Inner(Pop(w)))
    case Starting => Some(Inner(Wrapper(w)))
    case Body => if r.stages[w].Checking? then Some(Decide(CheckAdds)) else if r.stages[w].Ended? then None else Some(Op(w))
    case Adding => Some(Fanout.Count(w))
    case Pushing(_) => Some(Hand(w))
    case _ => None
  }

  predicate IsGrow(r: Run, act: Act) {
    || act == Inner(CallerFetch(Check)) || act == Inner(CallerPush)
    || exists w :: w in r.group.tasks && w in r.stages && GrowOf(r, w) == Some(act)
  }

  lemma GrowIsEnabled(job: Job, r: Run, w: Fanout.Work)
    requires RunOk(job, r) && w in r.group.tasks && w in r.stages && GrowOf(r, w).Some?
    ensures ActEnabled(job, r, GrowOf(r, w).value)
  {
    hide RunOk, NextChild, InRange;
    BodiesAreNeverStuck(job, r, w);
    SchedulerProgress.TaskHasStage(job, r, w);
  }

  lemma CallerIsEnabled(job: Job, r: Run)
    requires Growing(job, r)
    ensures r.group.caller.Loaded? ==> ActEnabled(job, r, Inner(CallerFetch(Check)))
    ensures r.group.caller.Counted? ==> ActEnabled(job, r, Inner(CallerPush))
  {
    hide RunOk;
  }

  lemma EndedIsNew(job: Job, r: Run)
    requires Growing(job, r) && r.group.caller.Finished? && forall w | w in r.stages :: r.stages[w].Ended?
    ensures r.isNew && Check in r.stages && Load in r.stages
  {
    assert r.group.tasks != map[];
    var w :| w in r.group.tasks;
    CheckIsFirst(r, w);
    assert Owed(r, Load);
  }

  lemma RunOkParts(job: Job, r: Run)
    requires RunOk(job, r)
    ensures BodiesOk(job, r) && TaskGroupInvariant.AddersOk(r.group) && r.stages.Keys == r.group.tasks.Keys
  {
  }

  /** Once no task has anything left to add, all of them are there. */
  lemma AllAddedIsFull(job: Job, r: Run)
    requires Growing(job, r) && r.group.caller.Finished?
    requires forall w | w in r.stages :: r.stages[w].Ended?
    ensures |r.group.tasks| == MaxTasks(job)
  {
    hide RunOk, WorkOf, BodiesOk, TaskGroupInvariant.AddersOk;
    EndedIsNew(job, r);
    RunOkParts(job, r);
    FinishedHasChildren(job, r);
    hide Young;
    KeysAreWork(job, r);
    InWorkOf(|job.sizes|, |job.Formats()|);
    WorkOfSize(|job.sizes|, |job.Formats()|);
    assert r.group.tasks.Keys == WorkOf(|job.sizes|, |job.Formats()|);
  }

  lemma PusherOf(g: Group<Fanout.Work>, w: Fanout.Work) returns (u: Fanout.Work)
    requires TaskGroupInvariant.AddersOk(g) && g.caller.Finished? && w in g.tasks && g.tasks[w].Enqueuing?
    ensures At(g, u, Pushing(w))
  {
    u := g.tasks[w].adder.task;
  }

  /** A task on its way into the queue has somebody pushing it. */
  lemma EnqueuingHasPusher(job: Job, r: Run, w: Fanout.Work)
    requires Growing(job, r) && r.group.caller.Finished? && w in r.group.tasks && r.group.tasks[w].Enqueuing?
    ensures exists u :: u in r.group.tasks && u in r.stages && GrowOf(r, u).Some?
  {
    hide RunOk, Young, BodiesOk, TaskGroupInvariant.AddersOk;
    RunOkParts(job, r);
    var u := PusherOf(r.group, w);
    assert GrowOf(r, u).Some?;
  }

  lemma OtherGrows(job: Job, r: Run, w: Fanout.Work)
    requires Growing(job, r) && w in r.stages && w in r.group.tasks && !r.stages[w].Ended? && !r.group.tasks[w].Enqueuing?
    ensures GrowOf(r, w).Some?
  {
    hide RunOk;
  }

  /** Below its full size an upload can grow. */
  lemma GrowExists(job: Job, r: Run) returns (act: Act)
    requires Growing(job, r) && Live(r.group.tasks) < MaxTasks(job)
    ensures ActEnabled(job, r, act) && IsGrow(r, act)
  {
    AllCount(job, r);
    CallerIsEnabled(job, r);
    assert r.stages.Keys == r.group.tasks.Keys;
    hide RunOk, MaxTasks, GrowOf;
    if r.group.caller.Loaded? { return Inner(CallerFetch(Check)); }
    if r.group.caller.Counted? { return Inner(CallerPush); }
    if forall w | w in r.stages :: r.stages[w].Ended? { AllAddedIsFull(job, r); }
    var w :| w in r.stages && !r.stages[w].Ended?;
    if r.group.tasks[w].Enqueuing? { EnqueuingHasPusher(job, r, w); } else { OtherGrows(job, r, w); }
    hide Growing;
    var u :| u in r.group.tasks && u in r.stages && GrowOf(r, u).Some?;
    GrowIsEnabled(job, r, u);
    act := GrowOf(r, u).value;
  }

  // ---------------------------------------------------------------- a step of growth

  /** What growth keeps besides the invariant of every run. */
  ghost predicate StillGrows(r: Run, r': Run) {
    Young(r') && |r'.group.tasks| <= |r.group.tasks| + 1
  }

  lemma OneKeyMore<K, V>(m: map<K, V>, k: K, v: V)
    ensures |m[k := v]| <= |m| + 1 && (k in m ==> |m[k := v]| == |m|)
  {
    assert m[k := v].Keys == m.Keys + {k};
  }

  lemma CallerFetchGrows(job: Job, r: Run)
    requires Young(r) && ActEnabled(job, r, Inner(CallerFetch(Check)))
    ensures StillGrows(r, Perform(job, r, Inner(CallerFetch(Check))))
  {
    OneKeyMore(r.group.tasks, Check, Enqueuing(FromCaller));
  }

  lemma CallerPushGrows(job: Job, r: Run)
    requires Young(r) && ActEnabled(job, r, Inner(CallerPush))
    ensures StillGrows(r, Perform(job, r, Inner(CallerPush)))
  {
    OneKeyMore(r.group.tasks, r.group.caller.child, Queued);
  }

  lemma InnerGrows(job: Job, r: Run, w: Fanout.Work)
    requires Young(r) && w in r.group.tasks && (r.group.tasks[w].Queued? || r.group.tasks[w].Starting?)
    ensures r.group.tasks[w].Queued? ==> StillGrows(r, Perform(job, r, Inner(Pop(w))))
    ensures r.group.tasks[w].Starting? ==> StillGrows(r, Perform(job, r, Inner(Wrapper(w))))
  {
    OneKeyMore(r.group.tasks, w, Starting);
    OneKeyMore(r.group.tasks, w, Body);
  }

  lemma DecideGrows(job: Job, r: Run)
    requires Young(r) && ActEnabled(job, r, Decide(CheckAdds))
    ensures StillGrows(r, Perform(job, r, Decide(CheckAdds)))
  {
  }

  lemma CountedGrows(r: Run, r': Run, w: Fanout.Work, c: Fanout.Work)
    requires Young(r) && HasCounted(r, r', w, c) && r'.group.caller == r.group.caller
    ensures StillGrows(r, r')
  {
    OneKeyMore(r.group.tasks, c, Enqueuing(FromTask(w)));
    OneKeyMore(r.group.tasks[c := Enqueuing(FromTask(w))], w, Pushing(c));
  }

  lemma CountKeepsCaller(job: Job, r: Run, w: Fanout.Work)
    requires ActEnabled(job, r, Fanout.Count(w))
    ensures Perform(job, r, Fanout.Count(w)).group.caller == r.group.caller
  {
  }

  lemma CountGrows(job: Job, r: Run, w: Fanout.Work)
    requires Growing(job, r) && ActEnabled(job, r, Fanout.Count(w))
    ensures StillGrows(r, Perform(job, r, Fanout.Count(w)))
  {
    SchedulerProgress.TaskHasStage(job, r, w);
    CountKeepsCaller(job, r, w);
    CountEffect(job, r, w);
    hide *;
    CountedGrows(r, Perform(job, r, Fanout.Count(w)), w, NextChild(r, w).value);
  }

  lemma HandedGrows(r: Run, r': Run, w: Fanout.Work)
    requires Young(r) && w in r.group.tasks && w in r.stages && (w == Check ==> r.isNew)
    requires At(r'.group, w, Body) && r'.stages == r.stages[w := AfterAdd(r.stages[w])]
    requires forall u | u != w :: u in r'.group.tasks && u in r.group.tasks ==>
                 r'.group.tasks[u] == r.group.tasks[u] || (r.group.tasks[u].Enqueuing? && r'.group.tasks[u].Queued?)
    requires r'.group.tasks.Keys == r.group.tasks.Keys && r'.group.caller == r.group.caller
    requires r'.group.state == r.group.state && r'.isNew == r.isNew
    ensures StillGrows(r, r')
  {
    assert |r'.group.tasks| == |r'.group.tasks.Keys|;
  }

  lemma CheckAddsWhenNew(r: Run, w: Fanout.Work)
    requires ShapeOk(r) && w in r.stages && r.group.tasks[w].Pushing?
    ensures w == Check ==> r.isNew
  {
    assert PcOk(r, w) && KindOk(w, r.stages[w]);
  }

  lemma HandGrows(job: Job, r: Run, w: Fanout.Work)
    requires Growing(job, r) && ActEnabled(job, r, Hand(w))
    ensures StillGrows(r, Perform(job, r, Hand(w)))
  {
    CheckAddsWhenNew(r, w);
    SchedulerTermination.HandShape(r, Perform(job, r, Hand(w)), w);
    hide RunOk, Young, StillGrows, AfterAdd;
    HandedGrows(r, Perform(job, r, Hand(w)), w);
  }

  lemma AddingGrows(r: Run, w: Fanout.Work)
    requires Young(r) && At(r.group, w, Body) && w in r.stages
    ensures StillGrows(r, AddLoad(r, w))
  {
    OneKeyMore(r.group.tasks, w, Adding);
  }

  lemma OpGrows(job: Job, r: Run, w: Fanout.Work)
    requires Growing(job, r) && ActEnabled(job, r, Op(w)) && !r.stages[w].Ended?
    ensures StillGrows(r, Perform(job, r, Op(w)))
  {
    SchedulerProgress.TaskHasStage(job, r, w);
    if w.Save? { ParentFoldersComeFirst(job, r, w.index, w.format); }
    hide RunOk, StillGrows, Young;
    if NextChild(r, w).Some? {
      AddingGrows(r, w);
    } else {
      BodyKeepsGroup(job, r, w);
      hide BodyOp, NextChild, KindOk;
      BodyGrows(r, BodyOp(job, r, w));
    }
  }

  lemma BodyGrows(r: Run, r': Run)
    requires Young(r) && r'.group == r.group && r'.isNew == r.isNew && (Check in r'.stages <==> Check in r.stages)
    requires Check in r.stages ==> r'.stages[Check] == r.stages[Check]
    ensures StillGrows(r, r')
  {
  }

  lemma BodyKeepsGroup(job: Job, r: Run, w: Fanout.Work)
    requires At(r.group, w, Body) && w in r.stages && InRange(r, w) && KindOk(w, r.stages[w])
    requires !r.stages[w].Ended? && !r.stages[w].Checking? && NextChild(r, w).None?
    requires w.Save? ==> Sized(r.dims[w.index].width, r.dims[w.index].height) in r.tree
    ensures var r' := BodyOp(job, r, w);
      && r'.group == r.group && r'.isNew == r.isNew && (Check in r'.stages <==> Check in r.stages)
      && (Check in r.stages ==> r'.stages[Check] == r.stages[Check])
  {
    match w
    case Check =>
    case Load =>
    case Resize(i) =>
    case Save(i, j) =>
  }

  lemma GrowKeeps(job: Job, r: Run, act: Act)
    requires Growing(job, r) && ActEnabled(job, r, act) && IsGrow(r, act)
    ensures StillGrows(r, Perform(job, r, act))
  {
    hide RunOk, Young, StillGrows, Perform, ActEnabled;
    if act == Inner(CallerFetch(Check)) {
      CallerFetchGrows(job, r);
    } else if act == Inner(CallerPush) {
      CallerPushGrows(job, r);
    } else {
      var w :| w in r.group.tasks && w in r.stages && GrowOf(r, w) == Some(act);
      match act
      case Inner(a) => InnerGrows(job, r, w);
      case Decide(s) => DecideGrows(job, r);
      case Op(u) => OpGrows(job, r, w);
      case Count(u) => CountGrows(job, r, w);
      case Hand(u) => HandGrows(job, r, w);
    }
  }

  // ---------------------------------------------------------------- growth comes to an end

  function GrowRank(job: Job, r: Run): nat {
    SchedulerTermination.TasksRank(job, r, |job.sizes|) + SchedulerTermination.CallerRank(r.group.caller)
  }

  lemma GrowLowers(job: Job, r: Run, act: Act)
    requires Growing(job, r) && ActEnabled(job, r, act) && IsGrow(r, act)
    ensures GrowRank(job, Perform(job, r, act)) < GrowRank(job, r)
  {
    assert RunOk(job, r);
    hide Growing, RunOk, Perform, SchedulerTermination.TasksRank, SchedulerTermination.Lowers, IsWork, ActEnabled;
    if act == Decide(CheckAdds) {
      DecideLeft(job, r);
      SchedulerTermination.DecideEventLowers(job, r, CheckAdds);
    } else if SchedulerTermination.IsCaller(act) {
      SchedulerTermination.CallerLowers(job, r, act);
      SchedulerTermination.TasksRankFalls(job, r, Perform(job, r, act), |job.sizes|);
    } else {
      GrowIsWork(r, act);
      SchedulerTermination.WorkLowers(job, r, act);
      SchedulerTermination.MoverIsWork(job, r, act);
      SchedulerTermination.LowersRank(job, r, Perform(job, r, act), SchedulerTermination.MoverOf(act));
    }
  }

  lemma GrowIsWork(r: Run, act: Act)
    requires IsGrow(r, act) && !act.Decide?
    ensures IsWork(act)
  {
  }

  lemma DecideLeft(job: Job, r: Run)
    requires ActEnabled(job, r, Decide(CheckAdds))
    ensures var n, f := |job.sizes|, |job.Formats()|;
      SchedulerTermination.Left(CheckAdds, n, f) < SchedulerTermination.Left(r.stages[Check], n, f)
  {
  }

  // ---------------------------------------------------------------- the exact condition

  /** In every run of the upload the counter shows the true number of pending tasks. */
  ghost predicate CounterIsExact(job: Job) {
    forall acts :: LegalRun(job, InitRun(job), acts) ==>
      var g := EndOf(job, InitRun(job), acts).group; g.pending == Live(g.tasks)
  }

  /** A run that grows until one task more is pending than the counter can hold. */
  lemma {:induction false} GrowOn(job: Job, r: Run, acts: seq<Act>) returns (longer: seq<Act>)
    requires LegalRun(job, InitRun(job), acts) && r == EndOf(job, InitRun(job), acts) && Growing(job, r)
    requires Live(r.group.tasks) <= MAX_INT16 < MaxTasks(job)
    ensures LegalRun(job, InitRun(job), longer)
    ensures var g := EndOf(job, InitRun(job), longer).group; g.pending != Live(g.tasks)
    decreases GrowRank(job, r)
  {
    var act := GrowExists(job, r);
    var r' := Perform(job, r, act);
    AllCount(job, r);
    CountedActKeepsRunOk(job, r, act) by { assert RunOk(job, r); }
    GrowKeeps(job, r, act);
    GrowLowers(job, r, act);
    longer := acts + [act];
    assert longer[..|longer| - 1] == acts;
    hide RunOk, Young, Perform, GrowRank, IsGrow, Live, MaxTasks;
    assert EndOf(job, InitRun(job), longer) == r';
    assert Growing(job, r');
    AllCount(job, r');
    if Live(r'.group.tasks) <= MAX_INT16 {
      longer := GrowOn(job, r', longer);
    } else {
      CounterWraps(job, r');
    }
  }

  lemma CounterWraps(job: Job, r: Run)
    requires RunOk(job, r) && Live(r.group.tasks) == MAX_INT16 + 1
    ensures r.group.pending == -32768
  {
  }

  lemma FirstStep(job: Job)
    ensures LegalRun(job, InitRun(job), [Inner(CallerLoad)])
    ensures Growing(job, EndOf(job, InitRun(job), [Inner(CallerLoad)]))
    ensures Live(EndOf(job, InitRun(job), [Inner(CallerLoad)]).group.tasks) == 0
  {
    InitRunOk(job);
    var act: Act := Inner(CallerLoad);
    assert [act][..0] == [];
    assert CountedKeys(InitRun(job).group.tasks) == {};
    CountedActKeepsRunOk(job, InitRun(job), act);
    hide RunOk;
  }

  lemma SmallCounts(job: Job, r: Run)
    requires RunOk(job, r) && MaxTasks(job) <= MAX_INT16
    ensures r.group.pending == Live(r.group.tasks)
  {
    hide BodiesOk, MaxTasks, Live, TaskGroupInvariant.AddersOk, TaskGroupInvariant.ErrorsOk,
      TaskGroupInvariant.ZeroOk, TaskGroupInvariant.WinnerOk;
    TasksAreWork(job, r);
  }

  lemma SmallUploadsAreExact(job: Job)
    requires MaxTasks(job) <= MAX_INT16
    ensures CounterIsExact(job)
  {
    hide RunOk, Live, Perform, ActEnabled;
    forall acts | LegalRun(job, InitRun(job), acts)
      ensures var g := EndOf(job, InitRun(job), acts).group; g.pending == Live(g.tasks)
    {
      RunsAreOk(job, acts);
      SmallCounts(job, EndOf(job, InitRun(job), acts));
    }
  }

  /** The 16-bit counter suffices exactly for uploads with at most 32767 tasks. */
  lemma CounterCapacityIsExact(job: Job)
    ensures CounterIsExact(job) <==> MaxTasks(job) <= MAX_INT16
  {
    if MaxTasks(job) <= MAX_INT16 {
      SmallUploadsAreExact(job);
    } else {
      FirstStep(job);
      hide Growing, MaxTasks, EndOf, LegalRun;
      var acts := GrowOn(job, EndOf(job, InitRun(job), [Inner(CallerLoad)]), [Inner(CallerLoad)]);
    }
  }
}
