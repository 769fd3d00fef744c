/** What holds over every run of the pool: mutual exclusion, first in first out, no task lost to
    a missed wakeup before shutdown, and exactly when shutdown misses one. */
module ThreadPoolTheorems {
  import opened ThreadPools

  // ---------------------------------------------------------------- invariant

  ghost predicate LockOk<T>(p: Pool<T>) {
    && (p.mutex.ByWorker? ==> p.mutex.worker < |p.workers|)
    && (forall i: nat | i < |p.workers| :: Holds(p.workers[i]) <==> p.mutex == ByWorker(i))
    && (p.adder.Outside? <==> !p.mutex.ByAdder?)
  }

  /** A worker that holds the mutex sees the queue as it was when it tested it. */
  ghost predicate TestOk<T>(p: Pool<T>) {
    forall i: nat | i < |p.workers| ::
      var pc := p.workers[i];
      && (pc.AtSleep? ==> p.queue == [])
      && (pc.AtCheck? ==> p.queue != [] || p.shutdown)
      && (pc.AtPop? ==> p.queue != [])
  }

  /** A worker that will take the mutex and test the queue, or has just done so. */
  predicate OnItsWay<T>(pc: Pc<T>) {
    pc.AtLoop? || pc.AtLock? || pc.AtTest? || pc.Woken? || pc.AtCheck? || pc.AtPop?
  }

  function OnWay<T>(workers: seq<Pc<T>>): nat {
    if workers == [] then 0
    else OnWay(workers[..|workers| - 1]) + if OnItsWay(workers[|workers| - 1]) then 1 else 0
  }

  predicate Held<T>(pc: Pc<T>) {
    pc.AtUnlock? || pc.Unlocked?
  }

  function Has<T(==)>(pc: Pc<T>, t: T): nat {
    if Held(pc) && pc.task == t then 1 else 0
  }

  /** How many workers have popped a task equal to `t` and not called it yet. */
  function InHand<T(==)>(workers: seq<Pc<T>>, t: T): nat {
    if workers == [] then 0 else InHand(workers[..|workers| - 1], t) + Has(workers[|workers| - 1], t)
  }

  ghost predicate WakeOk<T>(p: Pool<T>) {
    !p.shutdown && !NobodyAsleep(p) ==> |p.queue| <= OnWay(p.workers) + if p.adder.Notifies? then 1 else 0
  }

  /** Every popped task has been called or is in a worker's hands. */
  ghost predicate TakenOk<T(!new)>(p: Pool<T>) {
    forall t :: multiset(p.popped)[t] == multiset(p.started)[t] + InHand(p.workers, t)
  }

  ghost predicate HistoryOk<T(!new)>(p: Pool<T>) {
    p.submitted == p.popped + p.queue && TakenOk(p)
  }

  ghost predicate LateOk<T>(p: Pool<T>) {
    && |p.late| == |p.workers|
    && forall i: nat | i < |p.workers| ::
         && (!p.shutdown ==> p.late[i] == 0)
         && p.late[i] <= 1
         && (p.late[i] == 1 ==> p.workers[i].Executing? || p.workers[i].AtLoop? || p.workers[i].Exited?)
  }

  ghost predicate CloserOk<T>(p: Pool<T>) {
    && (p.shutdown <==> p.closer.WakesAll? || p.closer.Joins?)
    && (!p.shutdown ==> forall i | 0 <= i < |p.workers| :: !p.workers[i].AtBreak? && !p.workers[i].Exited?)
  }

  ghost predicate Inv<T(!new)>(p: Pool<T>) {
    LockOk(p) && TestOk(p) && WakeOk(p) && HistoryOk(p) && LateOk(p) && CloserOk(p)
  }

  // ---------------------------------------------------------------- sums over the workers

  lemma {:induction false} OnWayMove<T>(workers: seq<Pc<T>>, i: nat, pc: Pc<T>)
    requires i < |workers|
    ensures OnWay(workers[i := pc])
         == OnWay(workers) - (if OnItsWay(workers[i]) then 1 else 0) + (if OnItsWay(pc) then 1 else 0)
  {
    var after := workers[i := pc];
    if i == |workers| - 1 {
      assert after[..|after| - 1] == workers[..|workers| - 1];
    } else {
      OnWayMove(workers[..|workers| - 1], i, pc);
      assert after[..|after| - 1] == workers[..|workers| - 1][i := pc];
    }
  }

  lemma {:induction false} InHandMove<T>(workers: seq<Pc<T>>, i: nat, pc: Pc<T>, t: T)
    requires i < |workers|
    ensures InHand(workers[i := pc], t) == InHand(workers, t) - Has(workers[i], t) + Has(pc, t)
  {
    var after := workers[i := pc];
    if i == |workers| - 1 {
      assert after[..|after| - 1] == workers[..|workers| - 1];
    } else {
      InHandMove(workers[..|workers| - 1], i, pc, t);
      assert after[..|after| - 1] == workers[..|workers| - 1][i := pc];
    }
  }

  lemma {:induction false} InHandSame<T>(workers: seq<Pc<T>>, workers': seq<Pc<T>>, t: T)
    requires |workers| == |workers'|
    requires forall i | 0 <= i < |workers| :: Has(workers[i], t) == Has(workers'[i], t)
    ensures InHand(workers, t) == InHand(workers', t)
  {
    if workers == [] {
    } else {
      InHandSame(workers[..|workers| - 1], workers'[..|workers| - 1], t);
    }
  }

  lemma {:induction false} InitSums<T>(n: nat, t: T)
    ensures InHand(seq(n, _ => Pc<T>.AtLoop), t) == 0
  {
    if n == 0 {
    } else {
      InitSums<T>(n - 1, t);
      assert seq(n, _ => Pc<T>.AtLoop)[..n - 1] == seq(n - 1, _ => Pc<T>.AtLoop);
    }
  }

  // ---------------------------------------------------------------- steps

  lemma StepKeepsLock<T>(p: Pool<T>, e: Event<T>)
    requires LockOk(p) && TestOk(p) && Enabled(p, e)
    ensures LockOk(Step(p, e))
  {
    if e.Worker? {
      WorkerKeepsLock(p, e.worker);
    }
  }

  lemma WorkerKeepsLock<T>(p: Pool<T>, i: nat)
    requires LockOk(p) && CanStep(p, i)
    ensures LockOk(WorkerStep(p, i))
  {
    match p.workers[i]
    case AtLoop =>
    case AtLock =>
    case AtTest =>
    case AtSleep =>
    case Woken =>
    case AtCheck =>
    case AtPop =>
    case AtUnlock(t) =>
    case Unlocked(t) =>
    case Executing(t) =>
    case AtBreak =>
  }

  lemma StepKeepsTest<T>(p: Pool<T>, e: Event<T>)
    requires LockOk(p) && TestOk(p) && Enabled(p, e)
    ensures TestOk(Step(p, e))
  {
    if e.Worker? {
      WorkerKeepsTest(p, e.worker);
    }
  }

  lemma WorkerKeepsTest<T>(p: Pool<T>, i: nat)
    requires LockOk(p) && TestOk(p) && CanStep(p, i)
    ensures TestOk(WorkerStep(p, i))
  {
    match p.workers[i]
    case AtLoop =>
    case AtLock =>
    case AtTest =>
    case AtSleep =>
    case Woken =>
    case AtCheck =>
    case AtPop =>
    case AtUnlock(t) =>
    case Unlocked(t) =>
    case Executing(t) =>
    case AtBreak =>
  }

  lemma WorkerKeepsWake<T>(p: Pool<T>, i: nat)
    requires TestOk(p) && WakeOk(p) && CanStep(p, i)
    ensures WakeOk(WorkerStep(p, i))
  {
    var p' := WorkerStep(p, i);
    OnWayMove(p.workers, i, p'.workers[i]);
    assert p'.workers == p.workers[i := p'.workers[i]];
    hide OnWay;
    if !NobodyAsleep(p) {
      match p.workers[i]
      case AtLoop =>
      case AtLock =>
      case AtTest =>
      case AtSleep =>
      case Woken =>
      case AtCheck =>
      case AtPop =>
      case AtUnlock(t) =>
      case Unlocked(t) =>
      case Executing(t) =>
      case AtBreak =>
    } else {
      assert !p.workers[i].AtSleep? ==> NobodyAsleep(p');
    }
  }

  lemma StepKeepsWake<T>(p: Pool<T>, e: Event<T>)
    requires TestOk(p) && WakeOk(p) && CloserOk(p) && Enabled(p, e)
    ensures WakeOk(Step(p, e))
  {
    match e
    case Worker(i) => WorkerKeepsWake(p, i);
    case Spurious(i) => OnWayMove(p.workers, i, Woken);
    case Enter(t) =>
    case Push =>
    case NotifyOne(i) => OnWayMove(p.workers, i, Woken);
    case NotifyNobody =>
    case Leave =>
    case CallShutdown =>
    case SetFlag =>
    case NotifyAll =>
  }

  /** What a worker's step does to the tasks popped and called. */
  ghost predicate Takes<T>(p: Pool<T>, p': Pool<T>, i: nat, t: T)
    requires i < |p.workers| == |p'.workers|
  {
    && p'.workers == p.workers[i := p'.workers[i]]
    && p'.popped + p'.queue == p.popped + p.queue && p'.submitted == p.submitted
    && multiset(p'.popped)[t] - multiset(p'.started)[t] - Has(p'.workers[i], t)
         == multiset(p.popped)[t] - multiset(p.started)[t] - Has(p.workers[i], t)
  }

  lemma PopTakes<T>(p: Pool<T>, i: nat, t: T)
    requires i < |p.workers| && p.workers[i].AtPop?
    ensures Takes(p, WorkerStep(p, i), i, t)
  {
    if p.queue != [] {
      assert p.queue == [p.queue[0]] + p.queue[1..];
      assert p.popped + [p.queue[0]] + p.queue[1..] == p.popped + p.queue;
    } else {
      assert p.workers == p.workers[i := p.workers[i]];
    }
  }

  lemma CallTakes<T>(p: Pool<T>, i: nat, t: T)
    requires i < |p.workers| && p.workers[i].Unlocked?
    ensures Takes(p, WorkerStep(p, i), i, t)
  {
  }

  lemma OthersTakeNothing<T>(p: Pool<T>, i: nat, t: T)
    requires CanStep(p, i) && !p.workers[i].AtPop? && !p.workers[i].Unlocked?
    ensures var p' := WorkerStep(p, i);
      && p'.popped == p.popped && p'.started == p.started && p'.queue == p.queue && p'.submitted == p.submitted
      && p'.workers == p.workers[i := p'.workers[i]] && Has(p'.workers[i], t) == Has(p.workers[i], t)
  {
  }

  lemma WorkerTakes<T>(p: Pool<T>, i: nat, t: T)
    requires CanStep(p, i)
    ensures Takes(p, WorkerStep(p, i), i, t)
  {
    if p.workers[i].AtPop? {
      PopTakes(p, i, t);
    } else if p.workers[i].Unlocked? {
      CallTakes(p, i, t);
    } else {
      OthersTakeNothing(p, i, t);
      hide WorkerStep;
    }
  }

  lemma WorkerKeepsHistory<T(!new)>(p: Pool<T>, i: nat)
    requires HistoryOk(p) && CanStep(p, i)
    ensures HistoryOk(WorkerStep(p, i))
  {
    var p' := WorkerStep(p, i);
    forall t ensures multiset(p'.popped)[t] == multiset(p'.started)[t] + InHand(p'.workers, t) {
      WorkerTakes(p, i, t);
      InHandMove(p.workers, i, p'.workers[i], t);
      hide WorkerStep, InHand;
    }
    OrderKept(p, i);
  }

  lemma OrderKept<T>(p: Pool<T>, i: nat)
    requires CanStep(p, i)
    ensures var p' := WorkerStep(p, i); p'.popped + p'.queue == p.popped + p.queue && p'.submitted == p.submitted
  {
    if p.workers[i].AtPop? && p.queue != [] { PopTakes(p, i, p.queue[0]); }
  }

  lemma StepKeepsHistory<T(!new)>(p: Pool<T>, e: Event<T>)
    requires HistoryOk(p) && Enabled(p, e)
    ensures HistoryOk(Step(p, e))
  {
    if e.Worker? {
      WorkerKeepsHistory(p, e.worker);
    } else {
      forall t ensures InHand(Step(p, e).workers, t) == InHand(p.workers, t) {
        InHandSame(p.workers, Step(p, e).workers, t);
      }
    }
  }

  lemma StepKeepsLate<T>(p: Pool<T>, e: Event<T>)
    requires LateOk(p) && Enabled(p, e)
    ensures LateOk(Step(p, e))
  {
    if e.Worker? {
      WorkerKeepsLate(p, e.worker);
    }
  }

  lemma WorkerKeepsLate<T>(p: Pool<T>, i: nat)
    requires LateOk(p) && CanStep(p, i)
    ensures LateOk(WorkerStep(p, i))
  {
    match p.workers[i]
    case AtLoop =>
    case AtLock =>
    case AtTest =>
    case AtSleep =>
    case Woken =>
    case AtCheck =>
    case AtPop =>
    case AtUnlock(t) =>
    case Unlocked(t) =>
    case Executing(t) =>
    case AtBreak =>
  }

  lemma StepKeepsCloser<T>(p: Pool<T>, e: Event<T>)
    requires CloserOk(p) && Enabled(p, e)
    ensures CloserOk(Step(p, e))
  {
    if e.Worker? {
      match p.workers[e.worker]
      case AtLoop =>
      case AtLock =>
      case AtTest =>
      case AtSleep =>
      case Woken =>
      case AtCheck =>
      case AtPop =>
      case AtUnlock(t) =>
      case Unlocked(t) =>
      case Executing(t) =>
      case AtBreak =>
    }
  }

  lemma StepKeepsInv<T(!new)>(p: Pool<T>, e: Event<T>)
    requires Inv(p) && Enabled(p, e)
    ensures Inv(Step(p, e))
  {
    StepKeepsLock(p, e);
    StepKeepsTest(p, e);
    StepKeepsWake(p, e);
    StepKeepsHistory(p, e);
    StepKeepsLate(p, e);
    StepKeepsCloser(p, e);
    hide LockOk, TestOk, WakeOk, HistoryOk, LateOk, CloserOk, Step;
  }

  lemma InitInv<T(!new)>(n: nat)
    ensures Inv(Init<T>(n))
  {
    forall t: T ensures InHand(Init<T>(n).workers, t) == 0 {
      InitSums<T>(n, t);
    }
  }

  lemma {:induction false} RunsKeepInv<T(!new)>(n: nat, run: seq<Event<T>>)
    requires Legal(Init(n), run)
    ensures Inv(Final(Init(n), run)) && |Final(Init(n), run).workers| == n
  {
    hide Inv;
    if run == [] {
      InitInv<T>(n);
    } else {
      var before := run[..|run| - 1];
      RunsKeepInv(n, before);
      StepKeepsInv(Final(Init(n), before), run[|run| - 1]);
    }
  }

  // ---------------------------------------------------------------- theorems

  /** At most one thread is inside the mutex. */
  lemma MutualExclusion<T(!new)>(p: Pool<T>, i: nat, j: nat)
    requires Inv(p) && i < |p.workers| && j < |p.workers| && Holds(p.workers[i])
    ensures p.adder.Outside? && (Holds(p.workers[j]) ==> i == j)
  {
    hide WakeOk, HistoryOk, LateOk;
  }

  /** Tasks leave the queue in the order in which they were submitted, each is popped once and
      called at most once, and `front` is never asked of an empty queue. */
  lemma FirstInFirstOut<T(!new)>(n: nat, run: seq<Event<T>>, i: nat)
    requires Legal(Init(n), run)
    ensures var p := Final(Init(n), run);
      && p.submitted == p.popped + p.queue
      && (forall t :: multiset(p.started)[t] <= multiset(p.popped)[t])
      && (i < |p.workers| && p.workers[i].AtPop? ==> p.queue != [])
  {
    RunsKeepInv(n, run);
  }

  /** While a worker sleeps un-notified, no more tasks are queued than workers are on their way
      to take one, a thread about to notify counted in: no wakeup is lost before shutdown. */
  lemma WorkConservation<T(!new)>(n: nat, run: seq<Event<T>>, i: nat)
    requires Legal(Init(n), run)
    requires var p := Final(Init(n), run); !p.shutdown && i < |p.workers| && p.workers[i].Asleep?
    ensures var p := Final(Init(n), run); |p.queue| <= OnWay(p.workers) + if p.adder.Notifies? then 1 else 0
  {
    RunsKeepInv(n, run);
  }

  lemma {:induction false} SomebodyOnWay<T>(workers: seq<Pc<T>>)
    requires OnWay(workers) > 0
    ensures exists i: nat :: i < |workers| && OnItsWay(workers[i])
  {
    if workers == [] {
    } else if OnItsWay(workers[|workers| - 1]) {
    } else {
      SomebodyOnWay(workers[..|workers| - 1]);
      var i: nat :| i < |workers| - 1 && OnItsWay(workers[..|workers| - 1][i]);
      assert OnItsWay(workers[i]);
    }
  }

  /** The steps that happen without a new submission, a spurious wakeup or a shutdown. */
  predicate IsOwn<T>(e: Event<T>) {
    e.Worker? || e.Push? || e.NotifyOne? || e.NotifyNobody? || e.Leave?
  }

  ghost predicate CanGoOn<T(!new)>(p: Pool<T>) {
    exists e: Event<T> :: IsOwn(e) && Enabled(p, e)
  }

  lemma AdderGoesOn<T(!new)>(p: Pool<T>)
    requires LockOk(p) && p.mutex.ByAdder?
    ensures CanGoOn(p)
  {
    match p.adder
    case Pushes(t) => assert Enabled(p, Push);
    case Notifies =>
      if NobodyAsleep(p) {
        assert Enabled(p, NotifyNobody);
      } else {
        var i :| 0 <= i < |p.workers| && p.workers[i].Asleep?;
        assert Enabled(p, NotifyOne(i));
      }
    case Releases => assert Enabled(p, Leave);
  }

  lemma WorkerGoesOn<T(!new)>(p: Pool<T>, i: nat)
    requires Inv(p) && i < |p.workers| && !p.workers[i].Asleep? && !p.workers[i].Exited?
    ensures CanGoOn(p)
  {
    hide WakeOk, HistoryOk, LateOk, TestOk;
    match p.mutex
    case ByAdder => AdderGoesOn(p);
    case Free => assert Enabled(p, Worker(i));
    case ByWorker(j) => assert Enabled(p, Worker(j));
  }

  /** No task is stranded before shutdown: while one is queued, some worker, or the thread that
      submitted it, takes a step without anybody's help. */
  lemma NoTaskIsStranded<T(!new)>(n: nat, run: seq<Event<T>>)
    requires Legal(Init(n), run) && n > 0
    requires var p := Final(Init(n), run); !p.shutdown && p.queue != []
    ensures CanGoOn(Final(Init(n), run))
  {
    RunsKeepInv(n, run);
    var p := Final(Init(n), run);
    if p.mutex.ByAdder? {
      AdderGoesOn(p);
    } else if NobodyAsleep(p) {
      WorkerGoesOn(p, 0);
    } else {
      SomebodyOnWay(p.workers);
      var i: nat :| i < |p.workers| && OnItsWay(p.workers[i]);
      WorkerGoesOn(p, i);
    }
  }

  /** After the flag is set each worker calls at most one more task. */
  lemma AtMostOneLateTask<T(!new)>(n: nat, run: seq<Event<T>>, i: nat)
    requires Legal(Init(n), run) && i < n
    ensures i < |Final(Init(n), run).late| && Final(Init(n), run).late[i] <= 1
  {
    RunsKeepInv(n, run);
    hide LockOk, TestOk, WakeOk, HistoryOk;
  }

  // ---------------------------------------------------------------- shutdown

  /** How many steps a worker has left once the flag is set. */
  function Rest<T>(pc: Pc<T>): nat {
    match pc
    case AtLoop => 1
    case AtLock => 4
    case AtTest => 3
    case AtSleep => 1
    case Asleep => 0
    case Woken => 4
    case AtCheck => 2
    case AtPop => 5
    case AtUnlock(_) => 4
    case Unlocked(_) => 3
    case Executing(_) => 2
    case AtBreak => 1
    case Exited => 0
  }

  function RestOf<T>(workers: seq<Pc<T>>): nat {
    if workers == [] then 0 else RestOf(workers[..|workers| - 1]) + Rest(workers[|workers| - 1])
  }

  lemma {:induction false} RestMove<T>(workers: seq<Pc<T>>, i: nat, pc: Pc<T>)
    requires i < |workers|
    ensures RestOf(workers[i := pc]) == RestOf(workers) - Rest(workers[i]) + Rest(pc)
  {
    var after := workers[i := pc];
    if i == |workers| - 1 {
      assert after[..|after| - 1] == workers[..|workers| - 1];
    } else {
      RestMove(workers[..|workers| - 1], i, pc);
      assert after[..|after| - 1] == workers[..|workers| - 1][i := pc];
    }
  }

  function AdderRest<T>(adder: AdderPc<T>): nat {
    match adder
    case Outside => 0
    case Pushes(_) => 3
    case Notifies => 2
    case Releases => 1
  }

  function Remaining<T>(p: Pool<T>): nat {
    RestOf(p.workers) + AdderRest(p.adder)
  }

  /** A worker that will miss, or has missed, the last notification. */
  predicate Misses<T>(pc: Pc<T>) {
    pc.AtSleep? || pc.Asleep?
  }

  predicate NobodyMisses<T>(p: Pool<T>) {
    forall i | 0 <= i < |p.workers| :: !Misses(p.workers[i])
  }

  /** After `notify_all`, with nobody left to notify a worker that missed it. */
  ghost predicate Closing<T(!new)>(p: Pool<T>) {
    Inv(p) && p.closer.Joins? && (p.adder.Outside? || NobodyMisses(p))
  }

  lemma OwnStepCloses<T(!new)>(p: Pool<T>, e: Event<T>)
    requires Closing(p) && IsOwn(e) && Enabled(p, e)
    ensures Closing(Step(p, e)) && Remaining(Step(p, e)) < Remaining(p)
    ensures forall i: nat | i < |p.workers| :: i < |Step(p, e).workers| && (Misses(Step(p, e).workers[i]) <==> Misses(p.workers[i]))
  {
    StepKeepsInv(p, e);
    if e.Worker? {
      assert p.shutdown && TestOk(p);
      hide Inv, LockOk, WakeOk, HistoryOk, LateOk;
      WorkerStepCloses(p, e.worker);
    }
  }

  lemma WorkerStepCloses<T>(p: Pool<T>, i: nat)
    requires CanStep(p, i) && p.shutdown && TestOk(p)
    ensures var p' := WorkerStep(p, i);
      && p'.workers == p.workers[i := p'.workers[i]] && p'.adder == p.adder && p'.closer == p.closer
      && RestOf(p'.workers) < RestOf(p.workers) && (Misses(p'.workers[i]) <==> Misses(p.workers[i]))
  {
    RestMove(p.workers, i, WorkerStep(p, i).workers[i]);
    hide RestOf;
    match p.workers[i]
    case AtLoop =>
    case AtLock =>
    case AtTest =>
    case AtSleep =>
    case Woken =>
    case AtCheck =>
    case AtPop =>
    case AtUnlock(t) =>
    case Unlocked(t) =>
    case Executing(t) =>
    case AtBreak =>
  }

  predicate AllOwn<T>(run: seq<Event<T>>) {
    forall k | 0 <= k < |run| :: IsOwn(run[k])
  }

  /** Runs after `notify_all` are finite, and workers neither begin nor cease to miss it. */
  lemma {:induction false} ClosingRuns<T(!new)>(p: Pool<T>, run: seq<Event<T>>)
    requires Closing(p) && Legal(p, run) && AllOwn(run)
    ensures Closing(Final(p, run)) && |run| + Remaining(Final(p, run)) <= Remaining(p)
    ensures |Final(p, run).workers| == |p.workers|
    ensures forall i: nat | i < |p.workers| :: Misses(Final(p, run).workers[i]) <==> Misses(p.workers[i])
  {
    hide Closing, Remaining, Step;
    if run == [] {
    } else {
      var before := run[..|run| - 1];
      ClosingRuns(p, before);
      OwnStepCloses(Final(p, before), run[|run| - 1]);
      StepKeepsWorkers(Final(p, before), run[|run| - 1]);
    }
  }

  lemma StepKeepsWorkers<T>(p: Pool<T>, e: Event<T>)
    requires Enabled(p, e)
    ensures |Step(p, e).workers| == |p.workers|
  {
  }

  /** From any such state some run goes on until nothing can. */
  lemma {:induction false} RunsOut<T(!new)>(p: Pool<T>, before: seq<Event<T>>) returns (run: seq<Event<T>>)
    requires Closing(p) && Legal(p, before) && AllOwn(before)
    ensures Legal(p, run) && AllOwn(run) && !CanGoOn(Final(p, run))
    decreases Remaining(p) - |before|
  {
    ClosingRuns(p, before);
    if CanGoOn(Final(p, before)) {
      var e: Event<T> :| IsOwn(e) && Enabled(Final(p, before), e);
      var longer := before + [e];
      assert longer[..|longer| - 1] == before;
      ClosingRuns(p, longer);
      run := RunsOut(p, longer);
    } else {
      run := before;
    }
  }

  /** Every run that goes on until nothing can ends with all workers gone: `join` returns. */
  ghost predicate JoinReturns<T(!new)>(p: Pool<T>) {
    forall run | Legal(p, run) && AllOwn(run) && !CanGoOn(Final(p, run)) ::
      forall i | 0 <= i < |Final(p, run).workers| :: Final(p, run).workers[i].Exited?
  }

  /** Shutdown sets its flag without the mutex. It completes exactly if, at `notify_all`, no
      worker stands between its test of the flag and its sleep. */
  lemma JoinReturnsIsExact<T(!new)>(p: Pool<T>)
    requires Inv(p) && p.closer.WakesAll?
    ensures JoinReturns(Step(p, NotifyAll)) <==> forall i | 0 <= i < |p.workers| :: !p.workers[i].AtSleep?
  {
    var p' := Step(p, NotifyAll);
    StepKeepsInv(p, NotifyAll);
    hide Inv, WakeOk, HistoryOk, LateOk, TestOk, CanGoOn;
    if forall i | 0 <= i < |p.workers| :: !p.workers[i].AtSleep? {
      assert NobodyMisses(p');
      AwakeReturn(p');
    } else {
      var i: nat :| i < |p.workers| && p.workers[i].AtSleep?;
      SleeperIsAlone(p, i);
      SleeperHangs(p', i);
    }
  }

  lemma AwakeReturn<T(!new)>(p: Pool<T>)
    requires Inv(p) && p.closer.Joins? && NobodyMisses(p)
    ensures JoinReturns(p)
  {
    forall run | Legal(p, run) && AllOwn(run) && !CanGoOn(Final(p, run))
      ensures forall i | 0 <= i < |Final(p, run).workers| :: Final(p, run).workers[i].Exited?
    {
      ClosingRuns(p, run);
      hide Inv, CanGoOn;
      AllHaveLeft(Final(p, run));
    }
  }

  lemma SleeperHangs<T(!new)>(p: Pool<T>, i: nat)
    requires Closing(p) && i < |p.workers| && Misses(p.workers[i])
    ensures !JoinReturns(p)
  {
    hide Closing, CanGoOn;
    var run := RunsOut(p, []);
    ClosingRuns(p, run);
    assert !Final(p, run).workers[i].Exited?;
  }

  lemma SleeperIsAlone<T(!new)>(p: Pool<T>, i: nat)
    requires Inv(p) && i < |p.workers| && p.workers[i].AtSleep?
    ensures p.adder.Outside?
  {
  }

  lemma AllHaveLeft<T(!new)>(p: Pool<T>)
    requires Inv(p) && NobodyMisses(p) && !CanGoOn(p)
    ensures forall i | 0 <= i < |p.workers| :: p.workers[i].Exited?
  {
    forall i: nat | i < |p.workers| ensures p.workers[i].Exited? {
      if !p.workers[i].Exited? { WorkerGoesOn(p, i); }
    }
  }
}
