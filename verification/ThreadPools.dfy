/** The pool of src/thread_pool.hpp at the granularity of its mutex and condition variable:
    workers, threads inside `add_task`, and the thread that shuts the pool down. */
module ThreadPools {

  /** The next thing a worker does. */
  datatype Pc<T> =
    | AtLoop             // `while (!shutdown)`
    | AtLock             // acquires the mutex
    | AtTest             // evaluates the predicate of the wait
    | AtSleep            // the predicate was false: releases the mutex and sleeps, in one step
    | Asleep
    | Woken              // re-acquires the mutex
    | AtCheck            // `if (shutdown) break`
    | AtPop
    | AtUnlock(task: T)
    | Unlocked(task: T)  // calls the task next
    | Executing(task: T)
    | AtBreak            // leaves the loop, which releases the mutex
    | Exited

  /** The thread inside `add_task`; the mutex lets in one at a time. */
  datatype AdderPc<T> = Outside | Pushes(task: T) | Notifies | Releases

  datatype CloserPc = NotCalled | SetsFlag | WakesAll | Joins

  datatype Holder = Free | ByWorker(worker: nat) | ByAdder

  /** `submitted`, `popped` and `started` are history: the tasks pushed, popped and called so
      far, in order; `late[i]` counts the tasks worker `i` called after the flag was set. */
  datatype Pool<T> = Pool(
    queue: seq<T>,
    workers: seq<Pc<T>>,
    mutex: Holder,
    shutdown: bool,
    adder: AdderPc<T>,
    closer: CloserPc,
    submitted: seq<T>,
    popped: seq<T>,
    started: seq<T>,
    late: seq<nat>)

  datatype Event<T> =
    | Worker(worker: nat)
    | Spurious(worker: nat)   // a sleeping worker wakes without being notified
    | Enter(task: T) | Push | NotifyOne(worker: nat) | NotifyNobody | Leave
    | CallShutdown | SetFlag | NotifyAll

  function Init<T>(n: nat): Pool<T> {
    Pool([], seq(n, _ => AtLoop), Free, false, Outside, NotCalled, [], [], [], seq(n, _ => 0))
  }

  predicate Holds<T>(pc: Pc<T>) {
    pc.AtTest? || pc.AtSleep? || pc.AtCheck? || pc.AtPop? || pc.AtUnlock? || pc.AtBreak?
  }

  predicate NobodyAsleep<T>(p: Pool<T>) {
    forall i | 0 <= i < |p.workers| :: !p.workers[i].Asleep?
  }

  predicate CanStep<T>(p: Pool<T>, i: nat) {
    i < |p.workers| && match p.workers[i]
    case Asleep => false
    case Exited => false
    case AtLock => p.mutex.Free?
    case Woken => p.mutex.Free?
    case _ => true
  }

  predicate Enabled<T>(p: Pool<T>, e: Event<T>) {
    match e
    case Worker(i) => CanStep(p, i)
    case Spurious(i) => i < |p.workers| && p.workers[i].Asleep?
    case Enter(t) => p.mutex.Free? && p.adder.Outside?
    case Push => p.adder.Pushes?
    case NotifyOne(i) => p.adder.Notifies? && i < |p.workers| && p.workers[i].Asleep?
    case NotifyNobody => p.adder.Notifies? && NobodyAsleep(p)
    case Leave => p.adder.Releases?
    case CallShutdown => p.closer.NotCalled?
    case SetFlag => p.closer.SetsFlag?
    case NotifyAll => p.closer.WakesAll?
  }

  function Go<T>(p: Pool<T>, i: nat, pc: Pc<T>): Pool<T>
    requires i < |p.workers|
  {
    p.(workers := p.workers[i := pc])
  }

  function WorkerStep<T>(p: Pool<T>, i: nat): Pool<T>
    requires CanStep(p, i)
  {
    match p.workers[i]
    case AtLoop => Go(p, i, if p.shutdown then Exited else AtLock)
    case AtLock => Go(p, i, AtTest).(mutex := ByWorker(i))
    case AtTest => Go(p, i, if p.queue != [] || p.shutdown then AtCheck else AtSleep)
    case AtSleep => Go(p, i, Asleep).(mutex := Free)
    case Woken => Go(p, i, AtTest).(mutex := ByWorker(i))
    case AtCheck => Go(p, i, if p.shutdown then AtBreak else AtPop)
    case AtPop =>
      if p.queue == [] then p  // undefined in the source; proved not to happen
      else Go(p, i, AtUnlock(p.queue[0])).(queue := p.queue[1..], popped := p.popped + [p.queue[0]])
    case AtUnlock(t) => Go(p, i, Unlocked(t)).(mutex := Free)
    case Unlocked(t) =>
      Go(p, i, Executing(t)).(started := p.started + [t],
                              late := if p.shutdown && i < |p.late| then p.late[i := p.late[i] + 1] else p.late)
    case Executing(t) => Go(p, i, AtLoop)
    case AtBreak => Go(p, i, Exited).(mutex := Free)
  }

  function Wake<T>(pc: Pc<T>): Pc<T> {
    if pc.Asleep? then Woken else pc
  }

  function Step<T>(p: Pool<T>, e: Event<T>): Pool<T>
    requires Enabled(p, e)
  {
    match e
    case Worker(i) => WorkerStep(p, i)
    case Spurious(i) => Go(p, i, Woken)
    case Enter(t) => p.(mutex := ByAdder, adder := Pushes(t))
    case Push => p.(queue := p.queue + [p.adder.task], submitted := p.submitted + [p.adder.task], adder := Notifies)
    case NotifyOne(i) => Go(p, i, Woken).(adder := Releases)
    case NotifyNobody => p.(adder := Releases)
    case Leave => p.(mutex := Free, adder := Outside)
    case CallShutdown => p.(closer := SetsFlag)
    case SetFlag => p.(shutdown := true, closer := WakesAll)
    case NotifyAll =>
      p.(workers := seq(|p.workers|, i requires 0 <= i < |p.workers| => Wake(p.workers[i])), closer := Joins)
  }

  predicate Legal<T>(p: Pool<T>, run: seq<Event<T>>)
    decreases |run|, 0
  {
    run == [] || (Legal(p, run[..|run| - 1]) && Enabled(Final(p, run[..|run| - 1]), run[|run| - 1]))
  }

  function Final<T>(p: Pool<T>, run: seq<Event<T>>): Pool<T>
    requires Legal(p, run)
    decreases |run|, 1
  {
    if run == [] then p else Step(Final(p, run[..|run| - 1]), run[|run| - 1])
  }
}
