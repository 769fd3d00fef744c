/** The server never stops with work left, unless all workers wait for another upload. */
module SchedulerProgress {
  import opened TaskGroups
  import TaskGroupInvariant
  import TaskGroupTheorems
  import opened Fanout
  import FanoutInvariant
  import FanoutTheorems
  import opened Server
  import opened ServerInvariant
  import opened Scheduler

  // ---------------------------------------------------------------- the queue

  /** The queue lists exactly the queued tasks. */
  ghost predicate QueueOk(c: Sched) {
    && (forall i: nat | i < |c.queue| ::
         c.queue[i].0 < |c.server.procs| && At(c.server.procs[c.queue[i].0].run.group, c.queue[i].1, Queued))
    && (forall p: nat, w | p < |c.server.procs| && At(c.server.procs[p].run.group, w, Queued) :: (p, w) in c.queue)
    && (forall i: nat, j: nat | i < j < |c.queue| :: c.queue[i] != c.queue[j])
  }

  // ---------------------------------------------------------------- progress

  lemma {:induction false} InBusySlots(procs: seq<Proc>, slot: Slot)
    requires slot in BusySlots(procs)
    ensures slot.p < |procs| && slot in ProcSlots(procs[slot.p], slot.p)
  {
    if procs == [] {
    } else {
      var before := procs[..|procs| - 1];
      if slot in BusySlots(before) { InBusySlots(before, slot); }
    }
  }

  /** The next step of a task that occupies a worker. */
  function NextOf(x: Proc, p: nat, w: Fanout.Work): Event
    requires w in x.run.group.tasks
  {
    match x.run.group.tasks[w]
    case Body =>
      if w in x.run.stages && x.run.stages[w].Checking? then CheckStep(p) else Server.Work(p, Op(w))
    case Adding => Server.Work(p, Fanout.Count(w))
    case Pushing(_) => Server.Work(p, Hand(w))
    case _ => Server.Work(p, Inner(Wrapper(w)))
  }

  lemma TaskHasStage(job: Job, r: Run, w: Fanout.Work)
    requires FanoutTheorems.RunOk(job, r) && w in r.group.tasks
    ensures w in r.stages && FanoutInvariant.KindOk(w, r.stages[w])
  {
  }

  lemma TaskHasNext(job: Job, x: Proc, p: nat, w: Fanout.Work)
    requires FanoutTheorems.RunOk(job, x.run) && w in x.run.group.tasks && Occupies(x.run.group.tasks[w])
    ensures var e := NextOf(x, p, w);
      (e.Work? ==> IsWork(e.act) && ActEnabled(job, x.run, e.act)) && (e.CheckStep? ==> w.Check? && InCheck(x))
  {
    hide FanoutTheorems.RunOk, InRange, NextChild;
    FanoutTheorems.BodiesAreNeverStuck(job, x.run, w);
    TaskHasStage(job, x.run, w);
  }

  /** A task that occupies a worker, other than a blocked check, can take its next step. */
  lemma RunningTaskMoves(uploads: seq<Upload>, s: State, p: nat, w: Fanout.Work)
    requires Safe(uploads, s) && p < |uploads|
    requires w in s.procs[p].run.group.tasks && Occupies(s.procs[p].run.group.tasks[w])
    requires w.Check? ==> !IsBlocked(s, p)
    ensures var e := NextOf(s.procs[p], p, w); !IsPop(e) && EventEnabled(uploads, s, e)
  {
    hide FanoutTheorems.RunOk, RegistryOk, RaisedOk, DataOk, StoreOk;
    assert ProcOk(uploads, s, p);
    TaskHasNext(uploads[p].job, s.procs[p], p, w);
    hide NotifierOk;
  }

  ghost predicate CanMove(n: nat, uploads: seq<Upload>, c: Sched) {
    exists e: Event :: SchedEnabled(n, uploads, c, e)
  }

  /** Whatever occupies a worker can move, or is a blocked check. */
  lemma BusyMoves(n: nat, uploads: seq<Upload>, c: Sched, slot: Slot)
    requires Safe(uploads, c.server) && slot in BusySlots(c.server.procs)
    ensures CanMove(n, uploads, c) || (slot.p in Blocked(c.server) && slot == TaskSlot(slot.p, Check))
  {
    var s := c.server;
    InBusySlots(s.procs, slot);
    assert |s.procs| == |uploads| && !s.crashed;
    hide FanoutTheorems.RunOk, RegistryOk, RaisedOk, DataOk, ProcOk, BusySlots;
    if slot.FinSlot? {
      assert SchedEnabled(n, uploads, c, FinStep(slot.p));
    } else if !slot.work.Check? || !IsBlocked(s, slot.p) {
      RunningTaskMoves(uploads, s, slot.p, slot.work);
      assert SchedEnabled(n, uploads, c, NextOf(s.procs[slot.p], slot.p, slot.work));
    }
  }

  lemma {:induction false} BlockedSlotsSize(ps: set<nat>)
    ensures |set p | p in ps :: TaskSlot(p, Check)| == |ps|
  {
    if ps == {} {
    } else {
      var p :| p in ps;
      BlockedSlotsSize(ps - {p});
      assert (set q | q in ps :: TaskSlot(q, Check)) == (set q | q in ps - {p} :: TaskSlot(q, Check)) + {TaskSlot(p, Check)};
    }
  }

  /** An idle worker takes the head of the queue. */
  lemma HeadMoves(n: nat, uploads: seq<Upload>, c: Sched)
    requires QueueOk(c) && c.queue != [] && |BusySlots(c.server.procs)| < n
    requires |c.server.procs| == |uploads| && !c.server.crashed
    ensures CanMove(n, uploads, c)
  {
    hide BusySlots;
    assert SchedEnabled(n, uploads, c, Server.Work(c.queue[0].0, Inner(Pop(c.queue[0].1))));
  }

  /** With an idle worker, or one that can move, a queued task does not have to stay. */
  lemma QueueMoves(n: nat, uploads: seq<Upload>, c: Sched)
    requires Safe(uploads, c.server) && QueueOk(c) && |Blocked(c.server)| < n
    ensures CanMove(n, uploads, c) || c.queue == []
  {
    var s := c.server;
    var slots := set p | p in Blocked(s) :: TaskSlot(p, Check);
    BlockedSlotsSize(Blocked(s));
    assert |s.procs| == |uploads| && !s.crashed;
    hide Safe, Blocked, BusySlots;
    if BusySlots(s.procs) <= slots {
      FanoutInvariant.SubsetSize(BusySlots(s.procs), slots);
      if c.queue != [] { HeadMoves(n, uploads, c); }
    } else {
      var slot :| slot in BusySlots(s.procs) && slot !in slots;
      BusyMoves(n, uploads, c, slot);
    }
  }

  function CallerAct(g: Group<Fanout.Work>): Action<Fanout.Work> {
    match g.caller
    case NotCalled => CallerLoad
    case Loaded => CallerFetch(Check)
    case Counted(child) => CallerPush
    case Finished => CallerPush
  }

  lemma RunIsOk(uploads: seq<Upload>, s: State, p: nat)
    requires Safe(uploads, s) && p < |uploads|
    ensures |s.procs| == |uploads| && !s.crashed && FanoutTheorems.RunOk(uploads[p].job, s.procs[p].run)
  {
    hide FanoutTheorems.RunOk, RegistryOk, RaisedOk, DataOk, StoreOk, NotifierOk, PhaseOk;
    assert ProcOk(uploads, s, p);
  }

  lemma CallerMoves(n: nat, uploads: seq<Upload>, c: Sched, p: nat)
    requires Safe(uploads, c.server) && p < |uploads| == |c.server.procs| && !c.server.procs[p].run.group.caller.Finished?
    ensures CanMove(n, uploads, c)
  {
    var g := c.server.procs[p].run.group;
    hide FanoutTheorems.RunOk, ActEnabled, Safe, BusySlots;
    RunIsOk(uploads, c.server, p);
    CallerHasNext(uploads[p].job, c.server.procs[p].run);
    assert SchedEnabled(n, uploads, c, Server.Work(p, Inner(CallerAct(g))));
  }

  lemma CallerHasNext(job: Job, r: Run)
    requires FanoutTheorems.RunOk(job, r) && !r.group.caller.Finished?
    ensures ActEnabled(job, r, Inner(CallerAct(r.group)))
  {
    assert r.group.caller.Loaded? ==> r.group.tasks == map[];
    hide FanoutTheorems.RunOk;
  }

  /** Once all its tasks have ended, an upload's group has called back. */
  lemma EndedUploadCalledBack(job: Job, x: Proc, p: nat)
    requires GroupOk(job, x) && PhaseOk(x, p) && x.run.group.caller.Finished?
    requires forall w | w in x.run.group.tasks :: x.run.group.tasks[w].Done?
    ensures x.run.group.callbacks != []
  {
    assert Check in x.run.group.tasks;
    TaskGroupTheorems.EndedMeansCalledBack(x.run.group);
  }

  /** An enqueuing task has somebody inside `add_task`. */
  lemma EnqueuingHasAdder(job: Job, x: Proc, w: Fanout.Work)
    requires GroupOk(job, x) && w in x.run.group.tasks && x.run.group.tasks[w].Enqueuing?
    requires x.run.group.caller.Finished?
    ensures exists u :: u in x.run.group.tasks && x.run.group.tasks[u].Pushing?
  {
    assert At(x.run.group, x.run.group.tasks[w].adder.task, Pushing(w));
  }

  lemma IdleUploadEnded(job: Job, c: Sched, p: nat)
    requires QueueOk(c) && c.queue == [] && p < |c.server.procs|
    requires var x := c.server.procs[p];
      && GroupOk(job, x) && x.run.group.caller.Finished?
      && forall w | w in x.run.group.tasks :: !Occupies(x.run.group.tasks[w])
    ensures forall w | w in c.server.procs[p].run.group.tasks :: c.server.procs[p].run.group.tasks[w].Done?
  {
    hide FanoutTheorems.RunOk;
    var x := c.server.procs[p];
    forall w | w in x.run.group.tasks ensures x.run.group.tasks[w].Done? {
      if x.run.group.tasks[w].Enqueuing? { EnqueuingHasAdder(job, x, w); }
      assert x.run.group.tasks[w].Queued? ==> (p, w) in c.queue;
    }
  }

  /** An upload that has not been answered can move, or is blocked. */
  lemma UploadMoves(n: nat, uploads: seq<Upload>, c: Sched, p: nat)
    requires Safe(uploads, c.server) && QueueOk(c) && c.queue == [] && p < |uploads|
    requires c.server.procs[p].replied.None?
    ensures CanMove(n, uploads, c) || IsBlocked(c.server, p)
  {
    hide FanoutTheorems.RunOk, RegistryOk, RaisedOk, DataOk, StoreOk, NotifierOk, QueueOk;
    var s, x := c.server, c.server.procs[p];
    assert ProcOk(uploads, s, p);
    if !x.run.group.caller.Finished? {
      CallerMoves(n, uploads, c, p);
    } else if forall w | w in x.run.group.tasks :: !Occupies(x.run.group.tasks[w]) {
      IdleUploadEnded(uploads[p].job, c, p);
      EndedUploadCalledBack(uploads[p].job, x, p);
      assert SchedEnabled(n, uploads, c, FinStep(p));
    } else {
      var w :| w in x.run.group.tasks && Occupies(x.run.group.tasks[w]);
      if w != Check || !IsBlocked(s, p) {
        RunningTaskMoves(uploads, s, p, w);
        assert SchedEnabled(n, uploads, c, NextOf(x, p, w));
      }
    }
  }

  /** With fewer than `n` workers blocked at the notifier's wait and an upload unanswered,
      some step can be taken. */
  lemma Progress(n: nat, uploads: seq<Upload>, c: Sched)
    requires Safe(uploads, c.server) && QueueOk(c) && |Blocked(c.server)| < n && !AllReplied(c.server)
    ensures CanMove(n, uploads, c)
  {
    QueueMoves(n, uploads, c);
    if c.queue == [] {
      var p: nat :| p < |c.server.procs| && c.server.procs[p].replied.None?;
      UploadMoves(n, uploads, c, p);
      if IsBlocked(c.server, p) {
        var q := c.server.procs[p].notifier.value;
        OwnerIsUnanswered(uploads, c.server, q);
        UploadMoves(n, uploads, c, q);
      }
    }
  }

  lemma OwnerIsUnanswered(uploads: seq<Upload>, s: State, q: nat)
    requires Safe(uploads, s) && q in s.raised
    ensures q < |uploads| && s.procs[q].replied.None? && !IsBlocked(s, q)
  {
    hide FanoutTheorems.RunOk;
    assert q < |uploads|;
    assert ProcOk(uploads, s, q);
  }
}
