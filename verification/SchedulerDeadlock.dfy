/** How waiting uploads can take all workers: a run of any list of uploads in which every hash
    gets its owner first, and then waiters occupy all workers while the owners' `load_image`
    tasks are still in the queue behind them. */
module SchedulerDeadlock {
  import opened TaskGroups
  import opened Fanout
  import opened Server
  import opened Scheduler
  import opened CheckRuns
  import SchedulerProgress

  /** Some run leads to `c`. */
  ghost predicate Reached(n: nat, uploads: seq<Upload>, c: Sched) {
    exists events :: LegalSched(n, uploads, InitSched(uploads), events) && SchedAfter(n, uploads, InitSched(uploads), events) == c
  }

  lemma ReachedNext(n: nat, uploads: seq<Upload>, c: Sched, e: Event)
    requires Reached(n, uploads, c) && SchedEnabled(n, uploads, c, e)
    ensures Reached(n, uploads, SchedNext(n, uploads, c, e))
  {
    hide SchedEnabled, SchedNext;
    var events :| LegalSched(n, uploads, InitSched(uploads), events) && SchedAfter(n, uploads, InitSched(uploads), events) == c;
    var longer := events + [e];
    assert longer[..|longer| - 1] == events;
    assert LegalSched(n, uploads, InitSched(uploads), longer);
  }

  // ---------------------------------------------------------------- one upload's way

  /** Where an upload stands in the run: not called, its check queued, its check done and its
      load queued, or its check waiting for `owner`. */
  datatype Kind = Fresh | Ready | Spawned | Parked(owner: nat)

  /** A run that has added the load. */
  function TwoTasks(job: Job, pending: int, pc: Pc<Fanout.Work>, stage: Stage, load: Pc<Fanout.Work>): Run {
    Run(Group(GroupState.Running, pending, map[Check := pc, Load := load], Finished, false, Nobody, [], {}),
        map[Check := stage, Load := LoadStages], true, false, job.extension, [], map[])
  }

  function ProcOf(job: Job, p: nat, kind: Kind): Proc {
    match kind
    case Fresh => InitProc(job)
    case Ready => Proc(Looking(job, Queued, FirstLook), None, None, AtGuard, None)
    case Parked(q) => Proc(Looking(job, Body, Waiting), Some(q), None, AtGuard, None)
    case Spawned => Proc(TwoTasks(job, 1, Done(Ok), Ended, Queued), Some(p), None, AtGuard, None)
  }

  lemma AddLeads(job: Job)
    ensures Leads(job, OnlyTask(job, Body, CheckAdds, true), Op(Check), OnlyTask(job, Adding, CheckAdds, true))
  {
    assert map[Check := Pc<Fanout.Work>.Body][Check := Adding] == map[Check := Adding];
  }

  lemma CountLeads(job: Job)
    ensures Leads(job, OnlyTask(job, Adding, CheckAdds, true), Fanout.Count(Check),
                  TwoTasks(job, 2, Pushing(Load), CheckAdds, Enqueuing(FromTask(Check))))
  {
    assert map[Check := Pc<Fanout.Work>.Adding][Load := Enqueuing(FromTask(Check))][Check := Pushing(Load)]
        == map[Check := Pushing(Load), Load := Enqueuing(FromTask(Check))];
    assert map[Check := CheckAdds][Load := LoadStages] == map[Check := CheckAdds, Load := LoadStages];
  }

  lemma HandLeads(job: Job)
    ensures Leads(job, TwoTasks(job, 2, Pushing(Load), CheckAdds, Enqueuing(FromTask(Check))), Hand(Check),
                  TwoTasks(job, 2, Body, Ended, Queued))
  {
    assert map[Check := Pushing(Load), Load := Enqueuing(FromTask(Check))][Load := Queued][Check := Body]
        == map[Check := Pc<Fanout.Work>.Body, Load := Queued];
    assert map[Check := CheckAdds, Load := LoadStages][Check := Ended] == map[Check := Ended, Load := LoadStages];
  }

  lemma ReturnLeads(job: Job)
    ensures Leads(job, TwoTasks(job, 2, Body, Ended, Queued), Op(Check), TwoTasks(job, 2, Returned, Ended, Queued))
  {
    assert map[Check := Pc<Fanout.Work>.Body, Load := Queued][Check := Returned] == map[Check := Returned, Load := Queued];
  }

  lemma DoneLeads(job: Job)
    ensures Leads(job, TwoTasks(job, 2, Returned, Ended, Queued), Inner(Wrapper(Check)), TwoTasks(job, 1, Done(Ok), Ended, Queued))
  {
    assert map[Check := Pc<Fanout.Work>.Returned, Load := Queued][Check := Done(Ok)] == map[Check := Done(Ok), Load := Queued];
  }

  // ---------------------------------------------------------------- steps of the server

  function With(c: Sched, p: nat, x: Proc, queue: seq<(nat, Fanout.Work)>): Sched
    requires p < |c.server.procs|
  {
    Sched(Put(c.server, p, x), queue)
  }

  /** `p` is an upload of a server that has not crashed. */
  predicate IsUp(uploads: seq<Upload>, c: Sched, p: nat) {
    p < |uploads| == |c.server.procs| && !c.server.crashed
  }

  predicate PopsOrPushes(act: Act) {
    act.Hand? || (act.Inner? && (act.a.Pop? || act.a.CallerPush?))
  }

  lemma PlainStep(n: nat, uploads: seq<Upload>, c: Sched, p: nat, x: Proc, queue: seq<(nat, Fanout.Work)>, act: Act, r': Run)
    requires IsUp(uploads, c, p) && Leads(uploads[p].job, x.run, act, r') && !PopsOrPushes(act)
    requires Reached(n, uploads, With(c, p, x, queue))
    ensures Reached(n, uploads, With(c, p, x.(run := r'), queue))
  {
    hide Perform, ActEnabled, IsWork, BusySlots, Reached;
    var c1 := With(c, p, x, queue);
    ReachedNext(n, uploads, c1, Server.Work(p, act));
    assert SchedNext(n, uploads, c1, Server.Work(p, act)) == With(c, p, x.(run := r'), queue);
  }

  lemma PushStep(n: nat, uploads: seq<Upload>, c: Sched, p: nat, x: Proc, queue: seq<(nat, Fanout.Work)>,
                 act: Act, r': Run, child: Fanout.Work)
    requires IsUp(uploads, c, p) && Leads(uploads[p].job, x.run, act, r')
    requires (act == Inner(CallerPush) && x.run.group.caller == Counted(child))
             || (act.Hand? && At(x.run.group, act.task, Pushing(child)))
    requires Reached(n, uploads, With(c, p, x, queue))
    ensures Reached(n, uploads, With(c, p, x.(run := r'), queue + [(p, child)]))
  {
    hide Perform, ActEnabled, IsWork, BusySlots, Reached;
    var c1 := With(c, p, x, queue);
    ReachedNext(n, uploads, c1, Server.Work(p, act));
    assert SchedNext(n, uploads, c1, Server.Work(p, act)) == With(c, p, x.(run := r'), queue + [(p, child)]);
  }

  lemma PopStep(n: nat, uploads: seq<Upload>, c: Sched, p: nat, x: Proc, queue: seq<(nat, Fanout.Work)>, w: Fanout.Work, r': Run)
    requires IsUp(uploads, c, p) && Leads(uploads[p].job, x.run, Inner(Pop(w)), r')
    requires |BusySlots(With(c, p, x, queue).server.procs)| < n
    requires Reached(n, uploads, With(c, p, x, [(p, w)] + queue))
    ensures Reached(n, uploads, With(c, p, x.(run := r'), queue))
  {
    hide Perform, ActEnabled, IsWork, BusySlots, Reached;
    var c1 := With(c, p, x, [(p, w)] + queue);
    ReachedNext(n, uploads, c1, Server.Work(p, Inner(Pop(w))));
    assert SchedNext(n, uploads, c1, Server.Work(p, Inner(Pop(w)))) == With(c, p, x.(run := r'), queue);
  }

  lemma CheckingStep(n: nat, uploads: seq<Upload>, c: Sched, p: nat, x: Proc, queue: seq<(nat, Fanout.Work)>)
    requires IsUp(uploads, c, p) && MayCheck(Put(c.server, p, x), x)
    requires Reached(n, uploads, With(c, p, x, queue))
    ensures Reached(n, uploads, Sched(CheckNext(uploads, Put(c.server, p, x), p), queue))
  {
    hide MayCheck, BusySlots, Reached, CheckNext;
    ReachedNext(n, uploads, With(c, p, x, queue), CheckStep(p));
    assert queue + [] == queue;
  }

  // ---------------------------------------------------------------- the three phases

  /** The thread of upload `p` adds its check. */
  lemma CallOne(n: nat, uploads: seq<Upload>, c: Sched, p: nat)
    requires IsUp(uploads, c, p) && c.server.procs[p] == ProcOf(uploads[p].job, p, Fresh) && Reached(n, uploads, c)
    ensures Reached(n, uploads, With(c, p, ProcOf(uploads[p].job, p, Ready), c.queue + [(p, Check)]))
  {
    var job, x := uploads[p].job, c.server.procs[p];
    assert With(c, p, x, c.queue) == c;
    CallerLeads(job);
    hide Reached, Leads;
    PlainStep(n, uploads, c, p, x, c.queue, Inner(CallerLoad), Called(job, Loaded));
    PlainStep(n, uploads, c, p, x.(run := Called(job, Loaded)), c.queue, Inner(CallerFetch(Check)), CountedRun(job));
    PushStep(n, uploads, c, p, x.(run := CountedRun(job)), c.queue, Inner(CallerPush), Looking(job, Queued, FirstLook), Check);
  }

  /** A worker takes the check of `p` and finds no data. */
  lemma StartOne(n: nat, uploads: seq<Upload>, c: Sched, p: nat, queue: seq<(nat, Fanout.Work)>)
    requires IsUp(uploads, c, p) && c.server.procs[p] == ProcOf(uploads[p].job, p, Ready) && Reached(n, uploads, c)
    requires c.queue == [(p, Check)] + queue && |BusySlots(c.server.procs)| < n && c.server.data == map[]
    ensures Reached(n, uploads, With(c, p, c.server.procs[p].(run := Looking(uploads[p].job, Body, Emplacing)), queue))
  {
    hide Reached, Leads, BusySlots, Perform, ActEnabled, CheckNext, MayCheck, Looking;
    var job, x := uploads[p].job, c.server.procs[p];
    assert With(c, p, x, c.queue) == c;
    assert With(c, p, x, queue).server.procs == c.server.procs;
    PopLeads(job);
    FirstLookIs(uploads, c, p, x);
    PopStep(n, uploads, c, p, x, queue, Check, Looking(job, Starting, FirstLook));
    PlainStep(n, uploads, c, p, x.(run := Looking(job, Starting, FirstLook)), queue, Inner(Wrapper(Check)),
              Looking(job, Body, FirstLook));
    CheckingStep(n, uploads, c, p, x.(run := Looking(job, Body, FirstLook)), queue);
  }

  lemma FirstLookIs(uploads: seq<Upload>, c: Sched, p: nat, x: Proc)
    requires IsUp(uploads, c, p) && c.server.data == map[]
    ensures var x1 := x.(run := Looking(uploads[p].job, Body, FirstLook));
      && MayCheck(Put(c.server, p, x1), x1)
      && CheckNext(uploads, Put(c.server, p, x1), p) == Put(c.server, p, x.(run := Looking(uploads[p].job, Body, Emplacing)))
  {
    DecideLeads(uploads[p].job, FirstLook, Checking(Emplacing));
    hide Perform, ActEnabled;
  }

  /** An upload at `emplace`. */
  function AtEmplace(job: Job): Proc {
    Proc(Looking(job, Body, Emplacing), None, None, AtGuard, None)
  }

  lemma JoinIs(uploads: seq<Upload>, c: Sched, p: nat)
    requires IsUp(uploads, c, p) && uploads[p].hash in c.server.registry
    ensures var job, s := uploads[p].job, Put(c.server, p, AtEmplace(uploads[p].job));
      && MayCheck(s, AtEmplace(job))
      && CheckNext(uploads, s, p) == Put(c.server, p, ProcOf(job, p, Parked(c.server.registry[uploads[p].hash])))
  {
    DecideLeads(uploads[p].job, Emplacing, Checking(Waiting));
    hide Perform, ActEnabled;
  }

  lemma EmplaceIs(uploads: seq<Upload>, c: Sched, p: nat)
    requires IsUp(uploads, c, p) && uploads[p].hash !in c.server.registry
    ensures var job, s := uploads[p].job, Put(c.server, p, AtEmplace(uploads[p].job));
      && MayCheck(s, AtEmplace(job))
      && CheckNext(uploads, s, p)
           == Put(Owned(c, uploads[p].hash, p, []).server, p, Proc(Looking(job, Body, LookAgain), Some(p), None, AtGuard, None))
  {
    DecideLeads(uploads[p].job, Emplacing, Checking(LookAgain));
    hide Perform, ActEnabled;
  }

  lemma LookAgainIs(uploads: seq<Upload>, c: Sched, p: nat)
    requires IsUp(uploads, c, p) && c.server.data == map[]
    ensures var x := Proc(Looking(uploads[p].job, Body, LookAgain), Some(p), None, AtGuard, None);
      && MayCheck(Put(c.server, p, x), x)
      && CheckNext(uploads, Put(c.server, p, x), p) == Put(c.server, p, x.(run := OnlyTask(uploads[p].job, Body, CheckAdds, true)))
  {
    DecideLeads(uploads[p].job, LookAgain, CheckAdds);
    hide Perform, ActEnabled;
  }

  /** The hash is registered: the upload waits. */
  lemma ParkOne(n: nat, uploads: seq<Upload>, c: Sched, p: nat, queue: seq<(nat, Fanout.Work)>)
    requires IsUp(uploads, c, p) && c.server.procs[p] == ProcOf(uploads[p].job, p, Ready) && Reached(n, uploads, c)
    requires c.queue == [(p, Check)] + queue && |BusySlots(c.server.procs)| < n && c.server.data == map[]
    requires uploads[p].hash in c.server.registry
    ensures Reached(n, uploads, With(c, p, ProcOf(uploads[p].job, p, Parked(c.server.registry[uploads[p].hash])), queue))
  {
    StartOne(n, uploads, c, p, queue);
    JoinIs(uploads, c, p);
    hide Reached, Perform, ActEnabled, BusySlots, CheckNext, MayCheck;
    CheckingStep(n, uploads, c, p, AtEmplace(uploads[p].job), queue);
  }

  /** The server after upload `p` became the owner of its hash. */
  function Owned(c: Sched, h: Hash, p: nat, queue: seq<(nat, Fanout.Work)>): Sched {
    Sched(c.server.(registry := c.server.registry[h := p], raised := c.server.raised + {p}), queue)
  }

  /** The hash is free: the upload becomes its owner, looks again and goes on to add the load. */
  lemma OwnOne(n: nat, uploads: seq<Upload>, c: Sched, p: nat, queue: seq<(nat, Fanout.Work)>)
    requires IsUp(uploads, c, p) && c.server.procs[p] == ProcOf(uploads[p].job, p, Ready) && Reached(n, uploads, c)
    requires c.queue == [(p, Check)] + queue && |BusySlots(c.server.procs)| < n && c.server.data == map[]
    requires uploads[p].hash !in c.server.registry
    ensures Reached(n, uploads, With(Owned(c, uploads[p].hash, p, queue), p,
                                     Proc(OnlyTask(uploads[p].job, Body, CheckAdds, true), Some(p), None, AtGuard, None), queue))
  {
    var job, c' := uploads[p].job, Owned(c, uploads[p].hash, p, queue);
    StartOne(n, uploads, c, p, queue);
    EmplaceIs(uploads, c, p);
    LookAgainIs(uploads, c', p);
    hide Reached, Perform, ActEnabled, BusySlots, CheckNext, MayCheck;
    CheckingStep(n, uploads, c, p, AtEmplace(job), queue);
    CheckingStep(n, uploads, c', p, Proc(Looking(job, Body, LookAgain), Some(p), None, AtGuard, None), queue);
  }

  function Adds(job: Job, p: nat, r: Run): Proc {
    Proc(r, Some(p), None, AtGuard, None)
  }

  function HandingRun(job: Job): Run {
    TwoTasks(job, 2, Pushing(Load), CheckAdds, Enqueuing(FromTask(Check)))
  }

  lemma AddOne(n: nat, uploads: seq<Upload>, c: Sched, p: nat, queue: seq<(nat, Fanout.Work)>)
    requires IsUp(uploads, c, p)
    requires Reached(n, uploads, With(c, p, Adds(uploads[p].job, p, OnlyTask(uploads[p].job, Body, CheckAdds, true)), queue))
    ensures Reached(n, uploads, With(c, p, Adds(uploads[p].job, p, HandingRun(uploads[p].job)), queue))
  {
    var job := uploads[p].job;
    AddLeads(job);
    CountLeads(job);
    hide Reached, Leads, BusySlots;
    PlainStep(n, uploads, c, p, Adds(job, p, OnlyTask(job, Body, CheckAdds, true)), queue, Op(Check),
              OnlyTask(job, Adding, CheckAdds, true));
    PlainStep(n, uploads, c, p, Adds(job, p, OnlyTask(job, Adding, CheckAdds, true)), queue, Fanout.Count(Check), HandingRun(job));
  }

  lemma HandOne(n: nat, uploads: seq<Upload>, c: Sched, p: nat, queue: seq<(nat, Fanout.Work)>)
    requires IsUp(uploads, c, p)
    requires Reached(n, uploads, With(c, p, Adds(uploads[p].job, p, HandingRun(uploads[p].job)), queue))
    ensures var job := uploads[p].job;
      Reached(n, uploads, With(c, p, Adds(job, p, TwoTasks(job, 2, Body, Ended, Queued)), queue + [(p, Load)]))
  {
    var job := uploads[p].job;
    HandLeads(job);
    hide Reached, Leads, BusySlots;
    PushStep(n, uploads, c, p, Adds(job, p, HandingRun(job)), queue, Hand(Check), TwoTasks(job, 2, Body, Ended, Queued), Load);
  }

  lemma ReturnOne(n: nat, uploads: seq<Upload>, c: Sched, p: nat, queue: seq<(nat, Fanout.Work)>)
    requires IsUp(uploads, c, p)
    requires Reached(n, uploads, With(c, p, Adds(uploads[p].job, p, TwoTasks(uploads[p].job, 2, Body, Ended, Queued)), queue))
    ensures Reached(n, uploads, With(c, p, ProcOf(uploads[p].job, p, Spawned), queue))
  {
    var job := uploads[p].job;
    ReturnLeads(job);
    DoneLeads(job);
    hide Reached, Leads, BusySlots;
    PlainStep(n, uploads, c, p, Adds(job, p, TwoTasks(job, 2, Body, Ended, Queued)), queue, Op(Check),
              TwoTasks(job, 2, Returned, Ended, Queued));
    PlainStep(n, uploads, c, p, Adds(job, p, TwoTasks(job, 2, Returned, Ended, Queued)), queue, Inner(Wrapper(Check)),
              TwoTasks(job, 1, Done(Ok), Ended, Queued));
  }

  /** The owner adds the load, and its check ends. */
  lemma SpawnOne(n: nat, uploads: seq<Upload>, c: Sched, p: nat, queue: seq<(nat, Fanout.Work)>)
    requires IsUp(uploads, c, p) && c.server.procs[p] == ProcOf(uploads[p].job, p, Ready) && Reached(n, uploads, c)
    requires c.queue == [(p, Check)] + queue && |BusySlots(c.server.procs)| < n && c.server.data == map[]
    requires uploads[p].hash !in c.server.registry
    ensures Reached(n, uploads, With(Owned(c, uploads[p].hash, p, queue), p, ProcOf(uploads[p].job, p, Spawned), queue + [(p, Load)]))
  {
    var c' := Owned(c, uploads[p].hash, p, queue);
    OwnOne(n, uploads, c, p, queue);
    hide Reached, BusySlots, ProcOf;
    AddOne(n, uploads, c', p, queue);
    HandOne(n, uploads, c', p, queue);
    ReturnOne(n, uploads, c', p, queue + [(p, Load)]);
  }
}
