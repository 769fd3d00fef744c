/** Every run of the server is finite: a measure on the remaining check, load, resize and save
    work of all uploads falls with every step. */
module SchedulerTermination {
  import opened TaskGroups
  import TaskGroupInvariant
  import opened Fanout
  import opened FanoutInvariant
  import opened FanoutTheorems
  import opened Server
  import opened ServerInvariant
  import ServerTheorems
  import opened Scheduler
  import SchedulerProgress
  import SchedulerRuns

  // ---------------------------------------------------------------- the measure

  function Less(n: nat, k: nat): nat {
    if k < n then n - k else 0
  }

  /** How many operations a body has left at stage `s`, for `n` sizes and `f` formats. */
  function Left(s: Stage, n: nat, f: nat): nat {
    match s
    case Checking(pc) =>
      (match pc
       case FirstLook => 5
       case Emplacing => 4
       case Waiting => 3
       case LookAfterWait => 2
       case LookAgain => 2)
    case CheckAdds => 1
    case LoadStages => 2 * n + 5
    case LoadDetects => 2 * n + 4
    case LoadWrites => 2 * n + 3
    case LoadPushes(k) => Less(n, k) + n + 2
    case LoadAdds(k) => Less(n, k) + 1
    case ResizeScales => 2 * f + 4
    case ResizeMakesFolder => 2 * f + 3
    case ResizeLists(k) => Less(f, k) + f + 2
    case ResizeAdds(k) => Less(f, k) + 1
    case SaveEncodes => 2
    case SaveWrites(_) => 1
    case Ended => 0
  }

  function PcRank(pc: Pc<Fanout.Work>, left: nat, start: nat): nat {
    match pc
    case Enqueuing(_) => 3 * start + 8
    case Queued => 3 * start + 7
    case Starting => 3 * start + 6
    case Body => 3 * left + 5
    case Adding => 3 * left + 4
    case Pushing(_) => 3 * left + 3
    case Returned => 4
    case Zeroing => 3
    case Claiming => 2
    case Announcing => 1
    case Caught => 3
    case CaughtDecrement(_) => 2
    case Reporting(_) => 1
    case LateDecrement => 1
    case SkipDecrement => 1
    case Done(_) => 0
  }

  /** A task that has not been added yet has all its work before it. */
  function TaskRank(job: Job, r: Run, w: Fanout.Work): nat {
    var n, f := |job.sizes|, |job.Formats()|;
    if w in r.group.tasks && w in r.stages
    then PcRank(r.group.tasks[w], Left(r.stages[w], n, f), Left(StartOf(w), n, f))
    else 3 * Left(StartOf(w), n, f) + 9
  }

  function SavesRank(job: Job, r: Run, i: nat, f: nat): nat {
    if f == 0 then 0 else SavesRank(job, r, i, f - 1) + TaskRank(job, r, Save(i, f - 1))
  }

  function TasksRank(job: Job, r: Run, n: nat): nat {
    if n == 0 then TaskRank(job, r, Check) + TaskRank(job, r, Load)
    else TasksRank(job, r, n - 1) + TaskRank(job, r, Resize(n - 1)) + SavesRank(job, r, n - 1, |job.Formats()|)
  }

  function CallerRank(caller: Caller<Fanout.Work>): nat {
    match caller
    case NotCalled => 3
    case Loaded => 2
    case Counted(_) => 1
    case Finished => 0
  }

  function UploadRank(job: Job, x: Proc): nat {
    TasksRank(job, x.run, |job.sizes|) + CallerRank(x.run.group.caller) + ServerTheorems.FinRank(x)
  }

  /** The measure of the first `k` uploads. */
  function Measure(uploads: seq<Upload>, procs: seq<Proc>, k: nat): nat
    requires k <= |uploads| == |procs|
  {
    if k == 0 then 0 else Measure(uploads, procs, k - 1) + UploadRank(uploads[k - 1].job, procs[k - 1])
  }

  // ---------------------------------------------------------------- sums

  /** No task's rank grew. */
  ghost predicate NoneGrew(job: Job, r: Run, r': Run) {
    forall w :: TaskRank(job, r', w) <= TaskRank(job, r, w)
  }

  predicate Fell(job: Job, r: Run, r': Run, w: Fanout.Work) {
    TaskRank(job, r', w) < TaskRank(job, r, w)
  }

  lemma {:induction false} SavesRankFalls(job: Job, r: Run, r': Run, i: nat, f: nat)
    requires NoneGrew(job, r, r')
    ensures SavesRank(job, r', i, f) <= SavesRank(job, r, i, f)
    ensures forall w :: w in SavesOf(i, f) && Fell(job, r, r', w) ==> SavesRank(job, r', i, f) < SavesRank(job, r, i, f)
  {
    hide TaskRank;
    if f == 0 {
    } else {
      SavesRankFalls(job, r, r', i, f - 1);
    }
  }

  lemma {:induction false} TasksRankFalls(job: Job, r: Run, r': Run, n: nat)
    requires NoneGrew(job, r, r')
    ensures TasksRank(job, r', n) <= TasksRank(job, r, n)
    ensures forall w ::
      w in WorkOf(n, |job.Formats()|) && Fell(job, r, r', w) ==> TasksRank(job, r', n) < TasksRank(job, r, n)
  {
    hide TaskRank, SavesOf;
    if n == 0 {
    } else {
      TasksRankFalls(job, r, r', n - 1);
      SavesRankFalls(job, r, r', n - 1, |job.Formats()|);
    }
  }

  // ---------------------------------------------------------------- steps of one upload

  /** The step brought `w` nearer its end and moved no other task away from it. */
  ghost predicate Lowers(job: Job, r: Run, r': Run, w: Fanout.Work) {
    NoneGrew(job, r, r') && Fell(job, r, r', w) && r'.group.caller == r.group.caller
  }

  lemma WrapperLowers(job: Job, r: Run, w: Fanout.Work)
    requires ShapeOk(r) && ActEnabled(job, r, Inner(Wrapper(w)))
    ensures Lowers(job, r, Perform(job, r, Inner(Wrapper(w))), w)
  {
    assert w in r.stages && PcOk(r, w);
    hide ShapeOk;
    WrapperLowersRank(r.group, w, Left(r.stages[w], |job.sizes|, |job.Formats()|), Left(StartOf(w), |job.sizes|, |job.Formats()|));
    TaskGroupInvariant.WrapperShape(r.group, w);
    hide Left, PcRank, WrapperStep;
  }

  lemma WrapperLowersRank(g: Group<Fanout.Work>, w: Fanout.Work, left: nat, start: nat)
    requires Enabled(g, Wrapper(w)) && (g.tasks[w].Starting? ==> left == start)
    ensures w in WrapperStep(g, w).tasks && PcRank(WrapperStep(g, w).tasks[w], left, start) < PcRank(g.tasks[w], left, start)
  {
    match g.tasks[w]
    case Starting =>
    case LateDecrement =>
    case SkipDecrement =>
    case Caught =>
    case CaughtDecrement(exchanged) =>
    case Reporting(exchanged) =>
    case Returned =>
    case Zeroing =>
    case Claiming =>
    case Announcing =>
  }

  lemma PopLowers(job: Job, r: Run, w: Fanout.Work)
    requires ShapeOk(r) && ActEnabled(job, r, Inner(Pop(w)))
    ensures Lowers(job, r, Perform(job, r, Inner(Pop(w))), w)
  {
    hide Left;
  }

  lemma FailLowers(job: Job, r: Run, w: Fanout.Work)
    requires ShapeOk(r) && ActEnabled(job, r, Fail(w))
    ensures Lowers(job, r, Perform(job, r, Fail(w)), w)
  {
    hide Left;
  }

  lemma DecideLowers(job: Job, r: Run, to: Stage)
    requires ActEnabled(job, r, Decide(to))
    requires Left(to, |job.sizes|, |job.Formats()|) < Left(r.stages[Check], |job.sizes|, |job.Formats()|)
    ensures Lowers(job, r, Perform(job, r, Decide(to)), Check)
  {
    hide Left;
  }

  lemma CountLowers(job: Job, r: Run, w: Fanout.Work)
    requires ShapeOk(r) && ParentsOk(r) && ActEnabled(job, r, Count(w))
    ensures Lowers(job, r, Perform(job, r, Count(w)), w)
  {
    var r', c := Perform(job, r, Count(w)), NextChild(r, w).value;
    ChildIsFresh(r, w);
    CountEffect(job, r, w);
    assert PcOk(r, w) && r'.group.caller == r.group.caller;
    hide Left, ParentsOk, ShapeOk, Perform, NextChild, ActEnabled, PcOk;
    CountedLowers(job, r, r', w, c);
  }

  lemma CountedLowers(job: Job, r: Run, r': Run, w: Fanout.Work, c: Fanout.Work)
    requires HasCounted(r, r', w, c) && r.stages.Keys == r.group.tasks.Keys && r'.group.caller == r.group.caller
    ensures Lowers(job, r, r', w)
  {
    hide Left;
  }

  /** A body moved on to a stage with less left. */
  lemma AdvanceLowers(job: Job, r: Run, r': Run, w: Fanout.Work)
    requires ShapeOk(r) && w in r.group.tasks && At(r'.group, w, Body) && w in r'.stages
    requires r.group.tasks[w] == Body || r.group.tasks[w].Pushing?
    requires Left(r'.stages[w], |job.sizes|, |job.Formats()|) < Left(r.stages[w], |job.sizes|, |job.Formats()|)
    requires forall u | u != w :: (u in r'.stages <==> u in r.stages) && (u in r.stages ==> r'.stages[u] == r.stages[u])
    requires forall u | u != w :: u in r'.group.tasks && u in r.group.tasks ==>
                 r'.group.tasks[u] == r.group.tasks[u] || (r.group.tasks[u].Enqueuing? && r'.group.tasks[u].Queued?)
    requires r'.group.tasks.Keys == r.group.tasks.Keys && r'.group.caller == r.group.caller
    ensures Lowers(job, r, r', w)
  {
    hide Left;
  }

  lemma HandLowers(job: Job, r: Run, w: Fanout.Work)
    requires ShapeOk(r) && DimsOk(job, r) && TaskGroupInvariant.AddersOk(r.group) && ActEnabled(job, r, Hand(w))
    ensures Lowers(job, r, Perform(job, r, Hand(w)), w)
  {
    var r' := Perform(job, r, Hand(w));
    AddedLeft(job, r, w);
    HandShape(r, r', w);
    hide ShapeOk, DimsOk, TaskGroupInvariant.AddersOk, Perform, AfterAdd, NextChild;
    AdvanceLowers(job, r, r', w);
  }

  lemma HandShape(r: Run, r': Run, w: Fanout.Work)
    requires ShapeOk(r) && TaskGroupInvariant.AddersOk(r.group) && Enabled(r.group, Push(w)) && w in r.stages
    requires r' == Goto(r, w, AfterAdd(r.stages[w])).(group := Step(r.group, Push(w)))
    ensures At(r'.group, w, Body) && r'.stages == r.stages[w := AfterAdd(r.stages[w])]
    ensures forall u | u != w :: u in r'.group.tasks && u in r.group.tasks ==>
                 r'.group.tasks[u] == r.group.tasks[u] || (r.group.tasks[u].Enqueuing? && r'.group.tasks[u].Queued?)
    ensures r'.group.tasks.Keys == r.group.tasks.Keys && r'.group.caller == r.group.caller
  {
  }

  /** After each addition less is left, since no more children are due than the job has. */
  lemma AddedLeft(job: Job, r: Run, w: Fanout.Work)
    requires ShapeOk(r) && DimsOk(job, r) && w in r.group.tasks
    requires r.group.tasks[w].Pushing? || NextChild(r, w).Some?
    ensures var n, f := |job.sizes|, |job.Formats()|; Left(AfterAdd(r.stages[w]), n, f) < Left(r.stages[w], n, f)
  {
    assert w in r.stages && PcOk(r, w) && NextChild(r, w).Some?;
    if w.Resize? { assert DimOk(job, r, w.index); }
  }

  lemma AddLoadLowers(job: Job, r: Run, w: Fanout.Work)
    requires ShapeOk(r) && DimsOk(job, r) && ActEnabled(job, r, Op(w)) && NextChild(r, w).Some?
    ensures Lowers(job, r, AddLoad(r, w), w)
  {
    AddedLeft(job, r, w);
    hide Left, DimsOk, AfterAdd, NextChild;
    if r.group.state.DoneError? {
      AdvanceLowers(job, r, AddLoad(r, w), w);
    } else {
      LeavingLowers(job, r, AddLoad(r, w), w);
    }
  }

  /** A body left its operations, for `add_task` or because it threw. */
  lemma LeavingLowers(job: Job, r: Run, r': Run, w: Fanout.Work)
    requires At(r.group, w, Body) && w in r.stages && r'.stages == r.stages && r'.group.caller == r.group.caller
    requires r'.group.tasks == r.group.tasks[w := Adding] || r'.group.tasks == r.group.tasks[w := Caught]
    ensures Lowers(job, r, r', w)
  {
    hide Left;
  }

  /** Any other operation of a body ends it or leaves less to do. */
  ghost predicate OpProgress(job: Job, r: Run, r': Run, w: Fanout.Work) {
    && w in r.stages && r'.stages.Keys == r.stages.Keys && r'.stages == r.stages[w := r'.stages[w]]
    && if r'.group == r.group
       then Left(r'.stages[w], |job.sizes|, |job.Formats()|) < Left(r.stages[w], |job.sizes|, |job.Formats()|)
       else r'.stages == r.stages && Ends(r.group, r'.group, w)
  }

  predicate Ends(g: Group<Fanout.Work>, g': Group<Fanout.Work>, w: Fanout.Work) {
    At(g, w, Body) && (g' == Step(g, Throw(w)) || g' == Step(g, Return(w)))
  }

  lemma LoadOpLeft(job: Job, r: Run)
    requires ActEnabled(job, r, Op(Load)) && NextChild(r, Load).None? && KindOk(Load, r.stages[Load])
    ensures OpProgress(job, r, BodyOp(job, r, Load), Load)
  {
    hide Step;
    match r.stages[Load]
    case LoadStages =>
    case LoadDetects =>
    case LoadWrites =>
    case LoadPushes(k) =>
    case LoadAdds(k) =>
    case Ended => EndedOpLeft(job, r, Load);
  }

  lemma EndedOpLeft(job: Job, r: Run, w: Fanout.Work)
    requires ActEnabled(job, r, Op(w)) && r.stages[w].Ended?
    ensures OpProgress(job, r, BodyOp(job, r, w), w)
  {
    assert r.stages == r.stages[w := r.stages[w]];
    assert Step(r.group, Return(w)).tasks[w] != r.group.tasks[w];
  }

  lemma ResizeOpLeft(job: Job, r: Run, i: nat)
    requires ActEnabled(job, r, Op(Resize(i))) && NextChild(r, Resize(i)).None? && KindOk(Resize(i), r.stages[Resize(i)])
    requires r.original == job.Format()
    ensures OpProgress(job, r, BodyOp(job, r, Resize(i)), Resize(i))
  {
    hide Step;
    match r.stages[Resize(i)]
    case ResizeScales =>
    case ResizeMakesFolder =>
    case ResizeLists(k) =>
    case ResizeAdds(k) =>
    case Ended => EndedOpLeft(job, r, Resize(i));
  }

  lemma SaveOpLeft(job: Job, r: Run, i: nat, j: nat)
    requires ActEnabled(job, r, Op(Save(i, j))) && KindOk(Save(i, j), r.stages[Save(i, j)])
    ensures OpProgress(job, r, BodyOp(job, r, Save(i, j)), Save(i, j))
  {
    var w := Save(i, j);
    assert r.stages == r.stages[w := r.stages[w]];
    assert Step(r.group, Throw(w)).tasks[w] != r.group.tasks[w];
    hide Step;
    match r.stages[w]
    case SaveEncodes =>
    case SaveWrites(content) =>
    case Ended => EndedOpLeft(job, r, w);
  }

  lemma OpLeft(job: Job, r: Run, w: Fanout.Work)
    requires BodiesOk(job, r) && ActEnabled(job, r, Op(w)) && NextChild(r, w).None?
    ensures OpProgress(job, r, BodyOp(job, r, w), w)
  {
    assert KindOk(w, r.stages[w]);
    if w.Resize? {
      LoadIsPastDetecting(r, w.index);
      assert r.original == job.Format();
    }
    hide BodiesOk, BodyOp, OpProgress;
    match w
    case Check => CheckOpLeft(job, r);
    case Load => LoadOpLeft(job, r);
    case Resize(i) => ResizeOpLeft(job, r, i);
    case Save(i, j) => SaveOpLeft(job, r, i, j);
  }

  lemma OpLowers(job: Job, r: Run, w: Fanout.Work)
    requires BodiesOk(job, r) && ActEnabled(job, r, Op(w))
    ensures Lowers(job, r, Perform(job, r, Op(w)), w)
  {
    hide BodyOp, NextChild, KindOk, Step, OpProgress, Lowers, ShapeOk;
    if NextChild(r, w).Some? {
      AddLoadLowers(job, r, w);
    } else {
      OpLeft(job, r, w);
      OpProgressLowers(job, r, BodyOp(job, r, w), w);
    }
  }

  /** The only operation of the check, besides adding, is its return. */
  lemma CheckOpLeft(job: Job, r: Run)
    requires ActEnabled(job, r, Op(Check)) && NextChild(r, Check).None? && KindOk(Check, r.stages[Check])
    ensures OpProgress(job, r, BodyOp(job, r, Check), Check)
  {
    EndedOpLeft(job, r, Check);
  }

  lemma OpProgressLowers(job: Job, r: Run, r': Run, w: Fanout.Work)
    requires ShapeOk(r) && At(r.group, w, Body) && OpProgress(job, r, r', w)
    ensures Lowers(job, r, r', w)
  {
    if r'.group == r.group {
      hide Left;
      AdvanceLowers(job, r, r', w);
    } else {
      EndingLowers(job, r, r', w);
    }
  }

  lemma EndingLowers(job: Job, r: Run, r': Run, w: Fanout.Work)
    requires w in r.stages && r'.stages == r.stages && Ends(r.group, r'.group, w)
    ensures Lowers(job, r, r', w)
  {
    assert forall u | u != w :: u in r.group.tasks <==> u in r'.group.tasks;
    hide Left;
  }

  /** The task that an act of a task brings forward. */
  function MoverOf(act: Act): Fanout.Work {
    match act
    case Inner(a) => if a.Pop? || a.Wrapper? then a.task else Check
    case Decide(s) => Check
    case Op(w) => w
    case Count(w) => w
    case Hand(w) => w
    case Fail(w) => w
  }

  predicate IsCaller(act: Act) {
    act.Inner? && (act.a.CallerLoad? || act.a.CallerFetch? || act.a.CallerPush?)
  }

  lemma WorkLowers(job: Job, r: Run, act: Act)
    requires RunOk(job, r) && ActEnabled(job, r, act) && IsWork(act) && !IsCaller(act)
    ensures Lowers(job, r, Perform(job, r, act), MoverOf(act))
  {
    match act
    case Inner(a) =>
      if a.Pop? { PopLowers(job, r, a.task); } else { WrapperLowers(job, r, a.task); }
    case Op(w) => OpLowers(job, r, w);
    case Count(w) => CountLowers(job, r, w);
    case Hand(w) => HandLowers(job, r, w);
    case Fail(w) => FailLowers(job, r, w);
  }

  lemma CallerLowers(job: Job, r: Run, act: Act)
    requires RunOk(job, r) && ActEnabled(job, r, act) && IsCaller(act)
    ensures var r' := Perform(job, r, act);
      NoneGrew(job, r, r') && CallerRank(r'.group.caller) < CallerRank(r.group.caller)
  {
    assert act.a.CallerPush? ==> At(r.group, r.group.caller.child, Enqueuing(FromCaller));
    hide Left, RunOk;
  }

  // ---------------------------------------------------------------- steps of the server

  lemma LowersRank(job: Job, r: Run, r': Run, w: Fanout.Work)
    requires Lowers(job, r, r', w) && w in WorkOf(|job.sizes|, |job.Formats()|)
    ensures TasksRank(job, r', |job.sizes|) < TasksRank(job, r, |job.sizes|) && r'.group.caller == r.group.caller
  {
    TasksRankFalls(job, r, r', |job.sizes|);
  }

  lemma MoverIsWork(job: Job, r: Run, act: Act)
    requires RunOk(job, r) && ActEnabled(job, r, act) && IsWork(act) && !IsCaller(act)
    ensures MoverOf(act) in WorkOf(|job.sizes|, |job.Formats()|)
  {
    KeysAreWork(job, r);
    hide RunOk, WorkOf;
  }

  lemma WorkEventLowers(job: Job, x: Proc, act: Act)
    requires RunOk(job, x.run) && ActEnabled(job, x.run, act) && IsWork(act)
    ensures UploadRank(job, x.(run := Perform(job, x.run, act))) < UploadRank(job, x)
  {
    hide RunOk, Perform, Lowers, TasksRank;
    if IsCaller(act) {
      CallerLowers(job, x.run, act);
      TasksRankFalls(job, x.run, Perform(job, x.run, act), |job.sizes|);
    } else {
      WorkLowers(job, x.run, act);
      MoverIsWork(job, x.run, act);
      LowersRank(job, x.run, Perform(job, x.run, act), MoverOf(act));
    }
  }

  lemma DecideEventLowers(job: Job, r: Run, to: Stage)
    requires ActEnabled(job, r, Decide(to))
    requires Left(to, |job.sizes|, |job.Formats()|) < Left(r.stages[Check], |job.sizes|, |job.Formats()|)
    ensures var r' := Perform(job, r, Decide(to));
      TasksRank(job, r', |job.sizes|) < TasksRank(job, r, |job.sizes|) && r'.group.caller == r.group.caller
  {
    DecideLowers(job, r, to);
    InWorkOf(|job.sizes|, |job.Formats()|);
    LowersRank(job, r, Perform(job, r, Decide(to)), Check);
  }

  lemma FailedCheckLowers(job: Job, r: Run)
    requires RunOk(job, r) && ActEnabled(job, r, Fail(Check))
    ensures var r' := Perform(job, r, Fail(Check));
      TasksRank(job, r', |job.sizes|) < TasksRank(job, r, |job.sizes|) && r'.group.caller == r.group.caller
  {
    FailLowers(job, r, Check);
    InWorkOf(|job.sizes|, |job.Formats()|);
    LowersRank(job, r, Perform(job, r, Fail(Check)), Check);
  }

  /** What the next step of a check does to its task. */
  function CheckAct(uploads: seq<Upload>, s: State, p: nat): Act
    requires EventEnabled(uploads, s, CheckStep(p))
  {
    var h := uploads[p].hash;
    match s.procs[p].run.stages[Check].pc
    case FirstLook => if h in s.data then Decide(Ended) else Decide(Checking(Emplacing))
    case Emplacing => if h in s.registry then Decide(Checking(Waiting)) else Decide(Checking(LookAgain))
    case Waiting => Decide(Checking(LookAfterWait))
    case LookAfterWait => if h in s.data then Decide(Ended) else Fail(Check)
    case LookAgain => if h in s.data then Decide(Ended) else Decide(CheckAdds)
  }

  lemma CheckActIs(uploads: seq<Upload>, s: State, p: nat)
    requires EventEnabled(uploads, s, CheckStep(p))
    ensures ActEnabled(uploads[p].job, s.procs[p].run, CheckAct(uploads, s, p))
    ensures CheckAct(uploads, s, p).Decide? || CheckAct(uploads, s, p) == Fail(Check)
    ensures |s.procs| == |uploads| && |CheckNext(uploads, s, p).procs| == |s.procs|
    ensures var x' := CheckNext(uploads, s, p).procs[p];
      x'.fin == s.procs[p].fin && x'.run == Perform(uploads[p].job, s.procs[p].run, CheckAct(uploads, s, p))
  {
    hide Perform;
    match s.procs[p].run.stages[Check].pc
    case FirstLook =>
    case Emplacing =>
    case Waiting =>
    case LookAfterWait =>
    case LookAgain =>
  }

  lemma CheckActLowers(uploads: seq<Upload>, s: State, p: nat)
    requires EventEnabled(uploads, s, CheckStep(p)) && CheckAct(uploads, s, p).Decide?
    ensures var n, f := |uploads[p].job.sizes|, |uploads[p].job.Formats()|;
      Left(CheckAct(uploads, s, p).stage, n, f) < Left(s.procs[p].run.stages[Check], n, f)
  {
  }

  lemma CheckEventLowers(uploads: seq<Upload>, s: State, p: nat)
    requires EventEnabled(uploads, s, CheckStep(p)) && RunOk(uploads[p].job, s.procs[p].run)
    ensures UploadRank(uploads[p].job, CheckNext(uploads, s, p).procs[p]) < UploadRank(uploads[p].job, s.procs[p])
  {
    hide RunOk, Perform, TasksRank, CheckNext, Left, CheckAct, ActEnabled, MayCheck;
    var r, job, act := s.procs[p].run, uploads[p].job, CheckAct(uploads, s, p);
    CheckActIs(uploads, s, p);
    if act.Decide? { CheckActLowers(uploads, s, p); }
    if act.Decide? {
      DecideEventLowers(job, r, act.stage);
    } else {
      FailedCheckLowers(job, r);
    }
  }

  lemma FinEventLowers(uploads: seq<Upload>, s: State, p: nat)
    requires EventEnabled(uploads, s, FinStep(p)) && !FinNext(OwnerOnly, uploads, s, p).crashed
    ensures UploadRank(uploads[p].job, FinNext(OwnerOnly, uploads, s, p).procs[p]) < UploadRank(uploads[p].job, s.procs[p])
  {
    hide TasksRank;
  }

  lemma NoCrash(uploads: seq<Upload>, s: State, e: Event)
    requires Safe(uploads, s) && AllFit(uploads) && EventEnabled(uploads, s, e)
    ensures RunOk(uploads[e.p].job, s.procs[e.p].run) && !Next(OwnerOnly, uploads, s, e).crashed
  {
    NextIsSafe(uploads, s, e);
    assert ProcOk(uploads, s, e.p);
    hide RunOk, Next, EventEnabled, RegistryOk, RaisedOk, DataOk, StoreOk, NotifierOk, PhaseOk;
  }

  lemma LooksMayFail(job: Job, x: Proc)
    requires Looks(x)
    ensures ActEnabled(job, x.run, Fail(Check))
  {
  }

  /** Every event brings its own upload nearer the end, and moves no other. */
  lemma EventLowers(uploads: seq<Upload>, s: State, e: Event)
    requires Safe(uploads, s) && AllFit(uploads) && EventEnabled(uploads, s, e)
    ensures var s' := Next(OwnerOnly, uploads, s, e);
      && SchedulerRuns.OnlyMoved(s.procs, s'.procs, e.p)
      && UploadRank(uploads[e.p].job, s'.procs[e.p]) < UploadRank(uploads[e.p].job, s.procs[e.p])
  {
    hide Safe, AllFit, RunOk, CheckNext, Perform, UploadRank, ActEnabled, FinNext, MayCheck;
    NoCrash(uploads, s, e);
    match e
    case Work(p, act) => WorkEventLowers(uploads[p].job, s.procs[p], act);
    case CheckStep(p) =>
      SchedulerRuns.CheckStepKeepsQueued(uploads, s, p);
      CheckEventLowers(uploads, s, p);
    case CheckFails(p) =>
      LooksMayFail(uploads[p].job, s.procs[p]);
      CheckFailsLowers(uploads[p].job, s.procs[p]);
    case FinStep(p) =>
      FinMovesOne(uploads, s, p);
      FinEventLowers(uploads, s, p);
  }

  lemma FinMovesOne(uploads: seq<Upload>, s: State, p: nat)
    requires EventEnabled(uploads, s, FinStep(p))
    ensures SchedulerRuns.OnlyMoved(s.procs, FinNext(OwnerOnly, uploads, s, p).procs, p)
  {
  }

  lemma CheckFailsLowers(job: Job, x: Proc)
    requires RunOk(job, x.run) && ActEnabled(job, x.run, Fail(Check))
    ensures UploadRank(job, x.(run := Perform(job, x.run, Fail(Check)))) < UploadRank(job, x)
  {
    FailedCheckLowers(job, x.run);
    hide RunOk, Perform, TasksRank;
  }

  lemma {:induction false} MeasureFalls(uploads: seq<Upload>, procs: seq<Proc>, procs': seq<Proc>, p: nat, k: nat)
    requires k <= |uploads| == |procs| && SchedulerRuns.OnlyMoved(procs, procs', p)
    requires UploadRank(uploads[p].job, procs'[p]) < UploadRank(uploads[p].job, procs[p])
    ensures Measure(uploads, procs', k) <= Measure(uploads, procs, k)
    ensures p < k ==> Measure(uploads, procs', k) < Measure(uploads, procs, k)
  {
    hide UploadRank;
    if k == 0 {
    } else {
      MeasureFalls(uploads, procs, procs', p, k - 1);
    }
  }

  function Budget(uploads: seq<Upload>): nat {
    Measure(uploads, InitState(uploads).procs, |uploads|)
  }

  /** Every run of any number of workers is finite, and no longer than the work there is. */
  lemma {:induction false} RunsAreFinite(n: nat, uploads: seq<Upload>, events: seq<Event>)
    requires AllFit(uploads) && LegalSched(n, uploads, InitSched(uploads), events)
    ensures var c := SchedAfter(n, uploads, InitSched(uploads), events);
      |c.server.procs| == |uploads| && |events| + Measure(uploads, c.server.procs, |uploads|) <= Budget(uploads)
  {
    hide AllFit, Next, EventEnabled, Pushes, BusySlots, Measure, UploadRank;
    if events == [] {
    } else {
      var before, e := events[..|events| - 1], events[|events| - 1];
      RunsAreFinite(n, uploads, before);
      SchedulerRuns.RunsAreOk(n, uploads, before);
      var c := SchedAfter(n, uploads, InitSched(uploads), before);
      EventLowers(uploads, c.server, e);
      EventIsInside(uploads, c.server, e);
      MeasureFalls(uploads, c.server.procs, Next(OwnerOnly, uploads, c.server, e).procs, e.p, |uploads|);
    }
  }

  lemma EventIsInside(uploads: seq<Upload>, s: State, e: Event)
    requires EventEnabled(uploads, s, e)
    ensures e.p < |uploads|
  {
  }
}
