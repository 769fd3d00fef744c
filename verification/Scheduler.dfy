/** The server on a pool of `n` workers that take tasks from one FIFO queue. */
module Scheduler {
  import opened TaskGroups
  import opened Fanout
  import opened Server

  /** `queue` is the pool's deque. */
  datatype Sched = Sched(server: State, queue: seq<(nat, Work)>)

  function InitSched(uploads: seq<Upload>): Sched {
    Sched(InitState(uploads), [])
  }

  /** A worker is busy from the pop of a task until its wrapper, callback included, ends. */
  predicate Occupies(pc: Pc<Work>) {
    !pc.Enqueuing? && !pc.Queued? && !pc.Done?
  }

  datatype Slot = TaskSlot(p: nat, work: Work) | FinSlot(p: nat)

  function TaskSlots(x: Proc, p: nat): set<Slot> {
    set w | w in x.run.group.tasks && Occupies(x.run.group.tasks[w]) :: TaskSlot(p, w)
  }

  predicate Finalizes(x: Proc) {
    x.run.group.callbacks != [] && !x.fin.Finalized?
  }

  function ProcSlots(x: Proc, p: nat): set<Slot> {
    TaskSlots(x, p) + if Finalizes(x) then {FinSlot(p)} else {}
  }

  /** The busy workers, named by what they do. */
  function BusySlots(procs: seq<Proc>): set<Slot> {
    if procs == [] then {} else BusySlots(procs[..|procs| - 1]) + ProcSlots(procs[|procs| - 1], |procs| - 1)
  }

  /** What an event adds to the end of the queue, and whether it takes the head. */
  function Pushes(s: State, e: Event): seq<(nat, Work)>
    requires e.p < |s.procs|
  {
    var g := s.procs[e.p].run.group;
    if e.Work? && e.act.Inner? && e.act.a.CallerPush? && g.caller.Counted? then [(e.p, g.caller.child)]
    else if e.Work? && e.act.Hand? && e.act.task in g.tasks && g.tasks[e.act.task].Pushing?
    then [(e.p, g.tasks[e.act.task].child)]
    else []
  }

  predicate IsPop(e: Event) {
    e.Work? && e.act.Inner? && e.act.a.Pop?
  }

  /** Only the task at the head of the queue is popped, and only by an idle worker. */
  predicate SchedEnabled(n: nat, uploads: seq<Upload>, c: Sched, e: Event) {
    && EventEnabled(uploads, c.server, e)
    && (IsPop(e) ==> c.queue != [] && c.queue[0] == (e.p, e.act.a.task) && |BusySlots(c.server.procs)| < n)
  }

  function SchedNext(n: nat, uploads: seq<Upload>, c: Sched, e: Event): Sched
    requires SchedEnabled(n, uploads, c, e)
  {
    Sched(Next(OwnerOnly, uploads, c.server, e),
          (if IsPop(e) then c.queue[1..] else c.queue) + Pushes(c.server, e))
  }

  predicate LegalSched(n: nat, uploads: seq<Upload>, c: Sched, events: seq<Event>)
    decreases |events|, 0
  {
    events == []
    || (LegalSched(n, uploads, c, events[..|events| - 1])
        && SchedEnabled(n, uploads, SchedAfter(n, uploads, c, events[..|events| - 1]), events[|events| - 1]))
  }

  function SchedAfter(n: nat, uploads: seq<Upload>, c: Sched, events: seq<Event>): Sched
    requires LegalSched(n, uploads, c, events)
    decreases |events|, 1
  {
    if events == [] then c
    else SchedNext(n, uploads, SchedAfter(n, uploads, c, events[..|events| - 1]), events[|events| - 1])
  }

  /** Upload `p` sits in the notifier's wait, and the notifier still holds true. */
  predicate IsBlocked(s: State, p: nat)
    requires p < |s.procs|
  {
    var x := s.procs[p];
    InCheck(x) && x.run.stages[Check].pc.Waiting? && x.notifier.Some? && x.notifier.value in s.raised
  }

  function Blocked(s: State): set<nat> {
    set p: nat | 0 <= p < |s.procs| && IsBlocked(s, p)
  }

  /** Every upload has been answered. */
  predicate AllReplied(s: State) {
    forall p: nat | p < |s.procs| :: s.procs[p].replied.Some?
  }

}
