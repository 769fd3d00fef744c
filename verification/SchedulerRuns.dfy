/** Runs of the server on its pool: the queue stays in step with the tasks, every run is
    finite, and a run ends with all uploads answered unless all workers are blocked. */
module SchedulerRuns {
  import opened TaskGroups
  import TaskGroupInvariant
  import opened Fanout
  import opened FanoutInvariant
  import FanoutTheorems
  import opened Server
  import opened ServerInvariant
  import opened Scheduler
  import opened SchedulerProgress

  // ---------------------------------------------------------------- the queue

  /** The tasks waiting in the queue are the same before and after. */
  ghost predicate SameQueued(g: Group<Fanout.Work>, g': Group<Fanout.Work>) {
    forall w :: At(g', w, Queued) <==> At(g, w, Queued)
  }

  predicate MovesQueue(act: Act) {
    act.Hand? || (act.Inner? && (act.a.Pop? || act.a.CallerPush?))
  }

  lemma OtherInnersKeepQueued(g: Group<Fanout.Work>, a: Action<Fanout.Work>)
    requires TaskGroupInvariant.AddersOk(g) && Enabled(g, a) && IsInner(a) && !a.Pop? && !a.CallerPush?
    ensures SameQueued(g, Step(g, a))
  {
    if a.Wrapper? {
      TaskGroupInvariant.WrapperShape(g, a.task);
      hide WrapperStep;
    }
  }

  lemma BodyStepsKeepQueued(g: Group<Fanout.Work>, a: Action<Fanout.Work>)
    requires Enabled(g, a) && (a.AddTask? || a.Return? || a.Throw? || a.Fetch?)
    ensures SameQueued(g, Step(g, a))
  {
  }

  lemma ActKeepsQueued(job: Job, r: Run, act: Act)
    requires TaskGroupInvariant.AddersOk(r.group) && ActEnabled(job, r, act) && !MovesQueue(act)
    ensures SameQueued(r.group, Perform(job, r, act).group)
  {
    hide Step, SameQueued;
    match act
    case Inner(a) => OtherInnersKeepQueued(r.group, a);
    case Decide(s) => NothingKeepsQueued(r.group);
    case Op(w) => OpKeepsQueued(job, r, w);
    case Count(w) => BodyStepsKeepQueued(r.group, Fetch(w, NextChild(r, w).value));
    case Fail(w) => BodyStepsKeepQueued(r.group, Throw(w));
  }

  lemma NothingKeepsQueued(g: Group<Fanout.Work>)
    ensures SameQueued(g, g)
  {
  }

  lemma OpKeepsQueued(job: Job, r: Run, w: Fanout.Work)
    requires ActEnabled(job, r, Op(w))
    ensures SameQueued(r.group, Perform(job, r, Op(w)).group)
  {
    hide Step, SameQueued, Perform;
    OpGroup(job, r, w);
    BodyStepsKeepQueued(r.group, AddTask(w));
    BodyStepsKeepQueued(r.group, Return(w));
    BodyStepsKeepQueued(r.group, Throw(w));
    NothingKeepsQueued(r.group);
  }

  /** What an operation of a body can do to the group. */
  lemma OpGroup(job: Job, r: Run, w: Fanout.Work)
    requires ActEnabled(job, r, Op(w))
    ensures var g, g' := r.group, Perform(job, r, Op(w)).group;
      g' == g || g' == Step(g, AddTask(w)) || g' == Step(g, Return(w)) || g' == Step(g, Throw(w))
  {
    hide Step;
  }

  ghost predicate OnlyMoved(procs: seq<Proc>, procs': seq<Proc>, p: nat) {
    p < |procs| == |procs'| && procs' == procs[p := procs'[p]]
  }

  /** Only upload `p` changed, and its queued tasks are those of before. */
  lemma SameQueuedKeepsQueue(c: Sched, c': Sched, p: nat)
    requires QueueOk(c) && c'.queue == c.queue && p < |c.server.procs|
    requires OnlyMoved(c.server.procs, c'.server.procs, p)
    requires SameQueued(c.server.procs[p].run.group, c'.server.procs[p].run.group)
    ensures QueueOk(c')
  {
  }

  lemma PopKeepsQueue(c: Sched, c': Sched, p: nat, w: Fanout.Work)
    requires QueueOk(c) && p < |c.server.procs| && c.queue != [] && c.queue[0] == (p, w) && c'.queue == c.queue[1..]
    requires OnlyMoved(c.server.procs, c'.server.procs, p)
    requires c'.server.procs[p].run.group.tasks == c.server.procs[p].run.group.tasks[w := Starting]
    ensures QueueOk(c')
  {
    forall q: nat, u | q < |c'.server.procs| && At(c'.server.procs[q].run.group, u, Queued) ensures (q, u) in c'.queue {
      assert (q, u) in c.queue && (q, u) != c.queue[0];
    }
  }

  lemma PushKeepsQueue(c: Sched, c': Sched, p: nat, w: Fanout.Work)
    requires QueueOk(c) && p < |c.server.procs| && c'.queue == c.queue + [(p, w)]
    requires OnlyMoved(c.server.procs, c'.server.procs, p)
    requires !At(c.server.procs[p].run.group, w, Queued)
    requires forall u :: At(c'.server.procs[p].run.group, u, Queued) <==> u == w || At(c.server.procs[p].run.group, u, Queued)
    ensures QueueOk(c')
  {
    forall q: nat, u | q < |c'.server.procs| && At(c'.server.procs[q].run.group, u, Queued) ensures (q, u) in c'.queue {
      assert (q, u) in c.queue || (q, u) == (p, w);
    }
  }

  /** What the steps that move the queue do to the queued tasks. */
  lemma HandQueues(job: Job, r: Run, w: Fanout.Work)
    requires TaskGroupInvariant.AddersOk(r.group) && ActEnabled(job, r, Hand(w))
    ensures var child, g' := r.group.tasks[w].child, Perform(job, r, Hand(w)).group;
      && !At(r.group, child, Queued)
      && forall u :: At(g', u, Queued) <==> u == child || At(r.group, u, Queued)
  {
  }

  lemma CallerPushQueues(job: Job, r: Run)
    requires TaskGroupInvariant.AddersOk(r.group) && ActEnabled(job, r, Inner(CallerPush))
    ensures var child, g' := r.group.caller.child, Perform(job, r, Inner(CallerPush)).group;
      && !At(r.group, child, Queued)
      && forall u :: At(g', u, Queued) <==> u == child || At(r.group, u, Queued)
  {
  }

  lemma PopTakes(job: Job, r: Run, w: Fanout.Work)
    requires ActEnabled(job, r, Inner(Pop(w)))
    ensures Perform(job, r, Inner(Pop(w))).group.tasks == r.group.tasks[w := Starting]
  {
  }

  lemma WorkKeepsQueue(n: nat, uploads: seq<Upload>, c: Sched, p: nat, act: Act)
    requires QueueOk(c) && SchedEnabled(n, uploads, c, Server.Work(p, act))
    requires TaskGroupInvariant.AddersOk(c.server.procs[p].run.group)
    ensures QueueOk(SchedNext(n, uploads, c, Server.Work(p, act)))
  {
    hide QueueOk, BusySlots, Perform, TaskGroupInvariant.AddersOk, SameQueued;
    var r, c' := c.server.procs[p].run, SchedNext(n, uploads, c, Server.Work(p, act));
    assert OnlyMoved(c.server.procs, c'.server.procs, p);
    assert c'.server.procs[p].run == Perform(uploads[p].job, r, act);
    if !MovesQueue(act) {
      ActKeepsQueued(uploads[p].job, r, act);
      hide ActEnabled;
      assert c'.queue == c.queue;
      SameQueuedKeepsQueue(c, c', p);
    } else if act.Hand? {
      HandQueues(uploads[p].job, r, act.task);
      PushKeepsQueue(c, c', p, r.group.tasks[act.task].child);
    } else if act.a.Pop? {
      PopTakes(uploads[p].job, r, act.a.task);
      assert c'.queue == c.queue[1..];
      PopKeepsQueue(c, c', p, act.a.task);
    } else {
      CallerPushQueues(uploads[p].job, r);
      PushKeepsQueue(c, c', p, r.group.caller.child);
    }
  }

  lemma FailedCheckKeepsQueued(job: Job, r: Run)
    requires ActEnabled(job, r, Fail(Check))
    ensures SameQueued(r.group, Perform(job, r, Fail(Check)).group)
  {
    BodyStepsKeepQueued(r.group, Throw(Check));
    hide Step, SameQueued;
  }

  lemma DecideKeepsGroup(job: Job, r: Run, to: Stage)
    requires ActEnabled(job, r, Decide(to))
    ensures Perform(job, r, Decide(to)).group == r.group
  {
  }

  lemma CheckStepKeepsQueued(uploads: seq<Upload>, s: State, p: nat)
    requires EventEnabled(uploads, s, CheckStep(p))
    ensures SameQueued(s.procs[p].run.group, CheckNext(uploads, s, p).procs[p].run.group)
    ensures OnlyMoved(s.procs, CheckNext(uploads, s, p).procs, p)
  {
    hide Perform, SameQueued;
    var r, job := s.procs[p].run, uploads[p].job;
    NothingKeepsQueued(r.group);
    FailedCheckKeepsQueued(job, r);
    forall to | CanDecide(to) ensures Perform(job, r, Decide(to)).group == r.group {
      DecideKeepsGroup(job, r, to);
    }
    match r.stages[Check].pc
    case FirstLook =>
    case Emplacing =>
    case Waiting =>
    case LookAfterWait =>
    case LookAgain =>
  }

  /** Steps of the check and of `finalize` leave the queue alone. */
  lemma CheckKeepsQueued(uploads: seq<Upload>, s: State, e: Event)
    requires EventEnabled(uploads, s, e) && !e.Work?
    ensures SameQueued(s.procs[e.p].run.group, Next(OwnerOnly, uploads, s, e).procs[e.p].run.group)
    ensures OnlyMoved(s.procs, Next(OwnerOnly, uploads, s, e).procs, e.p)
  {
    hide Perform, SameQueued, CheckNext;
    match e
    case CheckStep(p) => CheckStepKeepsQueued(uploads, s, p);
    case CheckFails(p) => FailedCheckKeepsQueued(uploads[p].job, s.procs[p].run);
    case FinStep(p) => NothingKeepsQueued(s.procs[p].run.group);
  }

  lemma NextKeepsQueue(n: nat, uploads: seq<Upload>, c: Sched, e: Event)
    requires Safe(uploads, c.server) && QueueOk(c) && SchedEnabled(n, uploads, c, e)
    ensures QueueOk(SchedNext(n, uploads, c, e))
  {
    hide QueueOk, BusySlots, Next, RegistryOk, RaisedOk, DataOk, StoreOk, PhaseOk, NotifierOk, BodiesOk;
    if e.Work? {
      assert ProcOk(uploads, c.server, e.p);
      WorkKeepsQueue(n, uploads, c, e.p, e.act);
    } else {
      CheckKeepsQueued(uploads, c.server, e);
      assert SchedNext(n, uploads, c, e).queue == c.queue;
      SameQueuedKeepsQueue(c, SchedNext(n, uploads, c, e), e.p);
    }
  }

  lemma InitQueueOk(uploads: seq<Upload>)
    ensures QueueOk(InitSched(uploads))
  {
  }

  lemma {:induction false} RunsAreOk(n: nat, uploads: seq<Upload>, events: seq<Event>)
    requires AllFit(uploads) && LegalSched(n, uploads, InitSched(uploads), events)
    ensures var c := SchedAfter(n, uploads, InitSched(uploads), events); Safe(uploads, c.server) && QueueOk(c)
  {
    hide Safe, QueueOk, AllFit, Next, EventEnabled, Pushes, BusySlots;
    if events == [] {
      InitSafe(uploads);
      InitQueueOk(uploads);
    } else {
      var before := events[..|events| - 1];
      RunsAreOk(n, uploads, before);
      var c := SchedAfter(n, uploads, InitSched(uploads), before);
      NextIsSafe(uploads, c.server, events[|events| - 1]);
      NextKeepsQueue(n, uploads, c, events[|events| - 1]);
    }
  }

  // ---------------------------------------------------------------- the order of the queue

  /** The tasks that a run has put into the queue, in order. */
  function PushedBy(n: nat, uploads: seq<Upload>, c: Sched, events: seq<Event>): seq<(nat, Fanout.Work)>
    requires LegalSched(n, uploads, c, events)
  {
    if events == [] then [] else
    var before, e := events[..|events| - 1], events[|events| - 1];
    var s := SchedAfter(n, uploads, c, before).server;
    PushedBy(n, uploads, c, before) + (if e.p < |s.procs| then Pushes(s, e) else [])
  }

  /** And those that the workers have taken. */
  function PoppedBy(events: seq<Event>): seq<(nat, Fanout.Work)> {
    if events == [] then [] else
    var e := events[|events| - 1];
    PoppedBy(events[..|events| - 1]) + if IsPop(e) then [(e.p, e.act.a.task)] else []
  }

  /** One event takes at most the head, and adds at the end. */
  lemma QueueMoves(n: nat, uploads: seq<Upload>, c: Sched, e: Event)
    requires SchedEnabled(n, uploads, c, e)
    ensures e.p < |c.server.procs|
    ensures c.queue + Pushes(c.server, e)
         == (if IsPop(e) then [(e.p, e.act.a.task)] else []) + SchedNext(n, uploads, c, e).queue
  {
    hide Next, Pushes, BusySlots;
    if IsPop(e) { assert c.queue == [c.queue[0]] + c.queue[1..]; }
  }

  /** Tasks are taken in the order in which they were added, whichever uploads they belong to. */
  lemma {:induction false} FirstInFirstOut(n: nat, uploads: seq<Upload>, events: seq<Event>)
    requires LegalSched(n, uploads, InitSched(uploads), events)
    ensures PushedBy(n, uploads, InitSched(uploads), events)
         == PoppedBy(events) + SchedAfter(n, uploads, InitSched(uploads), events).queue
  {
    hide SchedNext, SchedEnabled, Pushes;
    if events == [] {
    } else {
      var before, e := events[..|events| - 1], events[|events| - 1];
      FirstInFirstOut(n, uploads, before);
      var c := SchedAfter(n, uploads, InitSched(uploads), before);
      QueueMoves(n, uploads, c, e);
      var taken, queue := if IsPop(e) then [(e.p, e.act.a.task)] else [], SchedNext(n, uploads, c, e).queue;
      assert PoppedBy(before) + c.queue + Pushes(c.server, e) == PoppedBy(before) + (c.queue + Pushes(c.server, e));
      assert PoppedBy(before) + (taken + queue) == PoppedBy(events) + queue;
    }
  }
}
