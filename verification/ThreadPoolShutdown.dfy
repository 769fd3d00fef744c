/** `blocking_shutdown` from its call: exactly when every worker is sure to exit, and the run in
    which one does not. */
module ThreadPoolShutdown {
  import opened ThreadPools
  import opened ThreadPoolTheorems

  /** The steps of the pool and of the thread inside `blocking_shutdown`. */
  predicate IsOurs<T>(e: Event<T>) {
    IsOwn(e) || e.CallShutdown? || e.SetFlag? || e.NotifyAll?
  }

  predicate AllOurs<T>(run: seq<Event<T>>) {
    forall k | 0 <= k < |run| :: IsOurs(run[k])
  }

  ghost predicate CanProceed<T(!new)>(p: Pool<T>) {
    exists e: Event<T> :: IsOurs(e) && Enabled(p, e)
  }

  predicate AllExited<T>(p: Pool<T>) {
    forall i | 0 <= i < |p.workers| :: p.workers[i].Exited?
  }

  /** Every run that goes on until nothing can ends with all workers gone. */
  ghost predicate ShutdownReturns<T(!new)>(p: Pool<T>) {
    forall run | Legal(p, run) && AllOurs(run) && !CanProceed(Final(p, run)) :: AllExited(Final(p, run))
  }

  /** Every worker sleeps, and no `add_task` is about to wake one. */
  predicate AllQuiet<T>(p: Pool<T>) {
    (forall i | 0 <= i < |p.workers| :: p.workers[i].Asleep?) && (p.adder.Outside? || p.adder.Releases?)
  }

  // ---------------------------------------------------------------- a quiet pool

  /** What a shutdown that was called on a quiet pool keeps. */
  ghost predicate Quietly<T(!new)>(p: Pool<T>) {
    Inv(p) && if p.closer.Joins? then NobodyMisses(p) else AllQuiet(p)
  }

  lemma StepStaysQuiet<T(!new)>(p: Pool<T>, e: Event<T>)
    requires Quietly(p) && IsOurs(e) && Enabled(p, e)
    ensures Quietly(Step(p, e))
  {
    StepKeepsInv(p, e);
    if p.closer.Joins? {
      assert !e.CallShutdown? && !e.SetFlag? && !e.NotifyAll?;
      OwnStepCloses(p, e);
    }
    hide Inv;
  }

  lemma {:induction false} RunStaysQuiet<T(!new)>(p: Pool<T>, run: seq<Event<T>>)
    requires Quietly(p) && Legal(p, run) && AllOurs(run)
    ensures Quietly(Final(p, run))
  {
    hide Quietly, Step;
    if run == [] {
    } else {
      RunStaysQuiet(p, run[..|run| - 1]);
      StepStaysQuiet(Final(p, run[..|run| - 1]), run[|run| - 1]);
    }
  }

  /** The thread that shuts down takes its steps whatever the others do. */
  lemma CloserProceeds<T(!new)>(p: Pool<T>)
    requires !CanProceed(p)
    ensures p.closer.Joins? && !CanGoOn(p)
  {
    var e: Event<T> := if p.closer.NotCalled? then CallShutdown else if p.closer.SetsFlag? then SetFlag else NotifyAll;
    assert IsOurs(e) && !Enabled(p, e);
    forall o: Event<T> | IsOwn(o) ensures !Enabled(p, o) {
      assert IsOurs(o);
    }
  }

  lemma QuietReturns<T(!new)>(p: Pool<T>)
    requires Quietly(p)
    ensures ShutdownReturns(p)
  {
    forall run | Legal(p, run) && AllOurs(run) && !CanProceed(Final(p, run)) ensures AllExited(Final(p, run)) {
      RunStaysQuiet(p, run);
      CloserProceeds(Final(p, run));
      hide CanProceed, CanGoOn, Inv;
      AllHaveLeft(Final(p, run));
    }
  }

  // ---------------------------------------------------------------- driving a worker to its sleep

  function Rank<T>(pc: Pc<T>): nat {
    match pc
    case AtUnlock(_) => 8
    case Unlocked(_) => 7
    case Executing(_) => 6
    case AtLoop => 5
    case AtLock => 4
    case Woken => 4
    case AtTest => 3
    case AtCheck => 2
    case AtPop => 1
    case AtSleep => 1
    case Asleep => 0
    case AtBreak => 0
    case Exited => 0
  }

  function Ranks<T>(workers: seq<Pc<T>>): nat {
    if workers == [] then 0 else Ranks(workers[..|workers| - 1]) + Rank(workers[|workers| - 1])
  }

  function AdderRank<T>(adder: AdderPc<T>): nat {
    match adder
    case Pushes(_) => 20
    case Notifies => 6
    case Releases => 1
    case Outside => 0
  }

  /** The steps the pool can still take by itself before the flag is set. */
  function Effort<T>(p: Pool<T>): nat {
    10 * |p.queue| + Ranks(p.workers) + AdderRank(p.adder)
  }

  lemma {:induction false} RanksMove<T>(workers: seq<Pc<T>>, i: nat, pc: Pc<T>)
    requires i < |workers|
    ensures Ranks(workers[i := pc]) == Ranks(workers) - Rank(workers[i]) + Rank(pc)
  {
    var after := workers[i := pc];
    if i == |workers| - 1 {
      assert after[..|after| - 1] == workers[..|workers| - 1];
    } else {
      RanksMove(workers[..|workers| - 1], i, pc);
      assert after[..|after| - 1] == workers[..|workers| - 1][i := pc];
    }
  }

  lemma WorkerTakesEffort<T(!new)>(p: Pool<T>, i: nat)
    requires !p.shutdown && TestOk(p) && CanStep(p, i) && !p.workers[i].AtBreak?
    ensures Effort(WorkerStep(p, i)) < Effort(p)
  {
    RanksMove(p.workers, i, WorkerStep(p, i).workers[i]);
    hide Ranks;
    match p.workers[i]
    case AtLoop =>
    case AtLock =>
    case AtTest =>
    case AtSleep =>
    case Woken =>
    case AtCheck =>
    case AtPop =>
    case AtUnlock(t) =>
    case Unlocked(t) =>
    case Executing(t) =>
  }

  lemma OwnStepTakesEffort<T(!new)>(p: Pool<T>, e: Event<T>)
    requires Inv(p) && p.closer.NotCalled? && IsOwn(e) && Enabled(p, e)
    ensures Effort(Step(p, e)) < Effort(p)
  {
    assert !p.shutdown && TestOk(p) && CloserOk(p);
    hide Inv, LockOk, WakeOk, HistoryOk, LateOk, TestOk;
    match e
    case Worker(i) => WorkerTakesEffort(p, i);
    case Push =>
    case NotifyOne(i) => RanksMove(p.workers, i, Woken);
    case NotifyNobody =>
    case Leave =>
  }

  /** Somebody is up, or about to be woken. */
  predicate Restless<T>(p: Pool<T>) {
    p.workers != [] && !AllQuiet(p)
  }

  predicate SomeAtSleep<T>(p: Pool<T>) {
    exists i: nat :: i < |p.workers| && p.workers[i].AtSleep?
  }

  lemma RestlessGoesOn<T(!new)>(p: Pool<T>)
    requires Inv(p) && p.closer.NotCalled? && Restless(p)
    ensures CanGoOn(p)
  {
    if p.mutex.ByAdder? {
      AdderGoesOn(p);
    } else {
      assert p.adder.Outside?;
      var i: nat :| i < |p.workers| && !p.workers[i].Asleep?;
      assert CloserOk(p) && !p.shutdown;
      hide Inv;
      WorkerGoesOn(p, i);
    }
  }

  lemma RestlessStays<T(!new)>(p: Pool<T>, e: Event<T>)
    requires Inv(p) && p.closer.NotCalled? && Restless(p) && !SomeAtSleep(p) && IsOwn(e) && Enabled(p, e)
    ensures Restless(Step(p, e)) && Step(p, e).closer.NotCalled?
  {
    hide Inv;
    match e
    case Worker(i) => assert i < |p.workers| && !Step(p, e).workers[i].Asleep?;
    case Push =>
    case NotifyOne(i) => assert Step(p, e).workers[i].Woken?;
    case NotifyNobody => assert !p.workers[0].Asleep?;
    case Leave =>
  }

  /** Left to itself, a restless pool brings some worker to the point where it has tested the flag
      and is about to sleep. */
  lemma {:induction false} SomebodyGoesToSleep<T(!new)>(p: Pool<T>, run: seq<Event<T>>) returns (longer: seq<Event<T>>)
    requires Legal(p, run) && AllOurs(run)
    requires var q := Final(p, run); Inv(q) && q.closer.NotCalled? && Restless(q)
    ensures Legal(p, longer) && AllOurs(longer)
    ensures var q := Final(p, longer); Inv(q) && q.closer.NotCalled? && SomeAtSleep(q)
    decreases Effort(Final(p, run))
  {
    hide Inv, Step, Restless, SomeAtSleep, Effort;
    var q := Final(p, run);
    if SomeAtSleep(q) {
      longer := run;
    } else {
      RestlessGoesOn(q);
      var e: Event<T> :| IsOwn(e) && Enabled(q, e);
      OwnStepTakesEffort(q, e);
      RestlessStays(q, e);
      StepKeepsInv(q, e);
      var next := run + [e];
      assert next[..|run|] == run;
      longer := SomebodyGoesToSleep(p, next);
    }
  }

  // ---------------------------------------------------------------- the missed notification

  lemma {:induction false} Continues<T>(p: Pool<T>, a: seq<Event<T>>, b: seq<Event<T>>)
    requires Legal(p, a) && Legal(Final(p, a), b)
    ensures Legal(p, a + b) && Final(p, a + b) == Final(Final(p, a), b)
  {
    hide Step, Enabled;
    if b == [] {
      assert a + b == a;
    } else {
      Continues(p, a, b[..|b| - 1]);
      assert (a + b)[..|a + b| - 1] == a + b[..|b| - 1];
    }
  }

  /** The call, the flag and the notification, all before that worker sleeps. */
  lemma ShutdownOvertakes<T(!new)>(p: Pool<T>, i: nat) returns (run: seq<Event<T>>)
    requires Inv(p) && p.closer.NotCalled? && i < |p.workers| && p.workers[i].AtSleep?
    ensures Legal(p, run) && AllOurs(run) && Closing(Final(p, run))
    ensures i < |Final(p, run).workers| && Misses(Final(p, run).workers[i])
  {
    SleeperIsAlone(p, i);
    var p1 := Step(p, CallShutdown);
    var p2 := Step(p1, SetFlag);
    StepKeepsInv(p, CallShutdown);
    StepKeepsInv(p1, SetFlag);
    StepKeepsInv(p2, NotifyAll);
    hide Inv, Legal, Final;
    assert Legal(p, []) && Final(p, []) == p by { NoSteps(p); }
    OneMore(p, [], CallShutdown);
    OneMore(p, [] + [CallShutdown], SetFlag);
    OneMore(p, [] + [CallShutdown] + [SetFlag], NotifyAll);
    run := [] + [CallShutdown] + [SetFlag] + [NotifyAll];
  }

  lemma NoSteps<T>(p: Pool<T>)
    ensures Legal(p, []) && Final(p, []) == p
  {
  }

  lemma OneMore<T>(p: Pool<T>, run: seq<Event<T>>, e: Event<T>)
    requires Legal(p, run) && Enabled(Final(p, run), e)
    ensures Legal(p, run + [e]) && Final(p, run + [e]) == Step(Final(p, run), e)
  {
    hide Step, Enabled;
    assert (run + [e])[..|run|] == run;
  }

  lemma JoinedCannotProceed<T(!new)>(p: Pool<T>)
    requires p.closer.Joins? && !CanGoOn(p)
    ensures !CanProceed(p)
  {
    forall e: Event<T> | IsOurs(e) ensures !Enabled(p, e) {
      assert IsOwn(e) ==> !Enabled(p, e);
    }
  }

  lemma RestlessHangs<T(!new)>(p: Pool<T>)
    requires Inv(p) && p.closer.NotCalled? && Restless(p)
    ensures !ShutdownReturns(p)
  {
    hide Inv, Restless, CanProceed, CanGoOn, Closing, Step, Enabled;
    var a := SomebodyGoesToSleep(p, []);
    var i: nat :| i < |Final(p, a).workers| && Final(p, a).workers[i].AtSleep?;
    var b := ShutdownOvertakes(Final(p, a), i);
    Continues(p, a, b);
    var q := Final(p, a + b);
    var c := RunsOut(q, []);
    ClosingRuns(q, c);
    Continues(p, a + b, c);
    ClosingJoins(Final(q, c));
    JoinedCannotProceed(Final(q, c));
    assert AllOurs(a + b + c);
    assert !Final(q, c).workers[i].Exited?;
    assert !AllExited(Final(p, a + b + c));
  }

  lemma ClosingJoins<T(!new)>(p: Pool<T>)
    requires Closing(p)
    ensures p.closer.Joins?
  {
    hide Inv;
  }

  /** Shutdown sets its flag without the mutex. Called on a pool in any state, it is sure to bring
      all workers to their exit if and only if there are none, or they all sleep and no `add_task`
      is about to wake one of them: otherwise some worker can have its test of the flag behind it
      and its sleep before it when `notify_all` is called. */
  lemma ShutdownIsExact<T(!new)>(p: Pool<T>)
    requires Inv(p) && p.closer.NotCalled?
    ensures ShutdownReturns(p) <==> p.workers == [] || AllQuiet(p)
  {
    hide Inv, CanProceed, CanGoOn;
    if p.workers == [] {
      forall run | Legal(p, run) ensures AllExited(Final(p, run)) {
        WorkersStay(p, run);
      }
    } else if AllQuiet(p) {
      QuietReturns(p);
    } else {
      RestlessHangs(p);
    }
  }

  lemma {:induction false} WorkersStay<T>(p: Pool<T>, run: seq<Event<T>>)
    requires Legal(p, run)
    ensures |Final(p, run).workers| == |p.workers|
  {
    hide Step, Enabled;
    if run == [] {
    } else {
      WorkersStay(p, run[..|run| - 1]);
      StepKeepsWorkers(Final(p, run[..|run| - 1]), run[|run| - 1]);
    }
  }

  /** In particular a pool that has just been created can hang in its destructor. */
  lemma FreshPoolCanHang<T(!new)>(n: nat)
    ensures ShutdownReturns(Init<T>(n)) <==> n == 0
  {
    InitInv<T>(n);
    hide ShutdownReturns, Inv;
    ShutdownIsExact(Init<T>(n));
    if n > 0 { assert !Init<T>(n).workers[0].Asleep?; }
  }
}
