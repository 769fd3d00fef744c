/** What holds over whole runs of a task group: accurate counting, unreachable logic errors,
    one callback, quiescence, and the exact capacity of the 16-bit counter. */
module TaskGroupTheorems {
  import opened TaskGroups
  import opened TaskGroupInvariant

  lemma {:induction false} RunKeepsInv<T(!new)>(g: Group<T>, run: seq<Action<T>>)
    requires Inv(g) && Legal(g, run) && Bounded(g, run, MAX_INT16)
    ensures Inv(Final(g, run))
  {
    hide Inv, Step;
    if run == [] {
    } else {
      var before := run[..|run| - 1];
      RunKeepsInv(g, before);
      StepKeepsInv(Final(g, before), run[|run| - 1]);
    }
  }

  lemma InitInv<T(!new)>()
    ensures Inv(Init<T>())
  {
    assert CountedKeys(Init<T>().tasks) == {};
  }

  /** Some run leads from `g0` to `g`, with at most `k` tasks pending all the way. */
  ghost predicate Reaches<T(!new)>(g0: Group<T>, k: nat, g: Group<T>) {
    exists run: seq<Action<T>> :: Legal(g0, run) && Bounded(g0, run, k) && Final(g0, run) == g
  }

  lemma ReachedInv<T(!new)>(g: Group<T>)
    requires Reaches(Init(), MAX_INT16, g)
    ensures Inv(g)
  {
    var run: seq<Action<T>> :| Legal(Init(), run) && Bounded(Init(), run, MAX_INT16) && Final(Init(), run) == g;
    InitInv<T>();
    RunKeepsInv(Init(), run);
  }

  /** The counter is exact and no `logic_error` site is reached. */
  lemma NoLogicErrors<T(!new)>(g: Group<T>)
    requires Reaches(Init(), MAX_INT16, g)
    ensures g.pending == Live(g.tasks) && g.thrown == {}
  {
    ReachedInv(g);
  }

  /** `Running` is left at most once: a Done state is never changed again. */
  lemma {:induction false} DoneIsFinal<T>(g: Group<T>, run: seq<Action<T>>)
    requires Legal(g, run) && !g.state.Running?
    ensures Final(g, run).state == g.state
  {
    if run == [] {
    } else {
      var before := run[..|run| - 1];
      DoneIsFinal(g, before);
      if run[|run| - 1].Wrapper? { WrapperShape(Final(g, before), run[|run| - 1].task); }
    }
  }

  /** At most one of `on_error` and `on_finish` is invoked, at most once, and which one
      it was is what the state says. */
  lemma AtMostOneCallback<T(!new)>(g: Group<T>)
    requires Reaches(Init(), MAX_INT16, g)
    ensures |g.callbacks| <= 1
    ensures g.callbacks == [OnFinish] ==> g.state.DoneOk?
    ensures g.callbacks == [OnError] ==> g.state.DoneError?
  {
    ReachedInv(g);
  }

  /** Every task ever added has returned normally and none can be added any more. */
  ghost predicate Quiet<T(!new)>(g: Group<T>) {
    g.state.DoneOk? && g.caller.Finished? && !g.cancelling
    && forall t | t in g.tasks :: g.tasks[t] == Done(Ok)
  }

  lemma FinishedIsQuiet<T(!new)>(g: Group<T>)
    requires Inv(g) && OnFinish in g.callbacks
    ensures Quiet(g)
  {
    LiveZero(g.tasks);
    assert g.winner.Won? && At(g, g.winner.task, Done(Ok));
    forall t | t in g.tasks ensures g.tasks[t] == Done(Ok) {
      var pc := g.tasks[t];
      assert !IsCounted(pc) && !IsZeroer(pc) && !pc.Reporting?;
      assert pc.Announcing? ==> g.winner == Won(t);
      assert pc.Done? && pc.outcome != Errored && pc.outcome != Skipped && pc.outcome != Threw;
    }
  }

  lemma {:induction false} QuietForever<T(!new)>(g: Group<T>, run: seq<Action<T>>)
    requires Quiet(g) && Legal(g, run)
    ensures Final(g, run) == g
  {
    if run == [] {
    } else {
      QuietForever(g, run[..|run| - 1]);
    }
  }

  /** `on_finish` is invoked only when every task ever added has returned normally; none is
      queued or running, and no continuation of the run adds, starts or calls back anything. */
  lemma OnFinishIsLast<T(!new)>(g: Group<T>, later: seq<Action<T>>)
    requires Reaches(Init(), MAX_INT16, g) && OnFinish in g.callbacks && Legal(g, later)
    ensures Quiet(g) && Final(g, later) == g
  {
    ReachedInv(g);
    FinishedIsQuiet(g);
    QuietForever(g, later);
  }

  /** Once every wrapper has ended, exactly one callback has been made: `on_finish` if all
      tasks returned and nothing was cancelled, `on_error` otherwise. */
  lemma EndedMeansCalledBack<T(!new)>(g: Group<T>)
    requires Inv(g) && g.tasks != map[] && !g.cancelling
    requires forall t | t in g.tasks :: g.tasks[t].Done?
    ensures !g.state.Running?
    ensures g.callbacks == if g.state.DoneOk? then [OnFinish] else [OnError]
  {
    LiveZero(g.tasks);
  }

  // ---------------------------------------------------------------- the counter's capacity

  /** No run that keeps at most `k` tasks pending reaches a `logic_error`. */
  ghost predicate SafeUpTo(k: nat) {
    forall g: Group<nat> | Reaches(Init(), k, g) :: g.thrown == {}
  }

  function Upto(n: nat): set<nat> {
    if n == 0 then {0} else Upto(n - 1) + {n}
  }

  lemma {:induction false} InUpto(n: nat, t: nat)
    ensures t in Upto(n) <==> t <= n
  {
    if n == 0 {
    } else {
      InUpto(n - 1, t);
    }
  }

  /** The state after task 0 has added tasks 1 to n, none of which has been popped. */
  function Grown(n: nat): Group<nat> {
    Group(Running, Wrap16(n + 1), map t: nat | t in Upto(n) :: if t == 0 then Body else Queued,
          Finished, false, Nobody, [], {})
  }

  lemma {:induction false} GrownLive(n: nat)
    ensures Live(Grown(n).tasks) == n + 1
  {
    if n == 0 {
      assert CountedKeys(Grown(0).tasks) == {0};
    } else {
      GrownLive(n - 1);
      InUpto(n - 1, n);
      assert CountedKeys(Grown(n).tasks) == CountedKeys(Grown(n - 1).tasks) + {n};
    }
  }

  lemma Go<T(!new)>(g0: Group<T>, k: nat, g: Group<T>, a: Action<T>)
    requires Reaches(g0, k, g) && Enabled(g, a) && Live(Step(g, a).tasks) <= k
    ensures Reaches(g0, k, Step(g, a))
  {
    var run: seq<Action<T>> :| Legal(g0, run) && Bounded(g0, run, k) && Final(g0, run) == g;
    hide Enabled, Step, Live;
    assert (run + [a])[..|run|] == run;
    assert Legal(g0, run + [a]) && Final(g0, run + [a]) == Step(g, a);
    assert Bounded(g0, run + [a], k);
  }

  lemma {:induction false} BoundedMore<T>(g: Group<T>, run: seq<Action<T>>, j: nat, k: nat)
    requires Legal(g, run) && Bounded(g, run, j) && j <= k
    ensures Bounded(g, run, k)
  {
    hide Step, Enabled;
    if run == [] {
    } else {
      BoundedMore(g, run[..|run| - 1], j, k);
    }
  }

  lemma ReachesMore<T(!new)>(g0: Group<T>, j: nat, k: nat, g: Group<T>)
    requires Reaches(g0, j, g) && j <= k
    ensures Reaches(g0, k, g)
  {
    var run: seq<Action<T>> :| Legal(g0, run) && Bounded(g0, run, j) && Final(g0, run) == g;
    BoundedMore(g0, run, j, k);
  }

  /** The creating thread adds task 0. */
  function Added(): Group<nat> {
    Group(Running, 1, map[0 := Queued], Finished, false, Nobody, [], {})
  }

  lemma AddedReached()
    ensures Reaches(Init(), 1, Added())
  {
    var g0 := Init<nat>();
    var g1 := g0.(caller := Loaded);
    var g2 := g1.(pending := 1, tasks := map[0 := Enqueuing(FromCaller)], caller := Counted(0));
    assert Live(g0.tasks) <= 1 && Live(g1.tasks) <= 1 by { assert CountedKeys(g0.tasks) == {}; }
    assert Live(g2.tasks) <= 1 by { LiveMove(g1.tasks, 0, Enqueuing(FromCaller)); }
    assert Live(Added().tasks) <= 1 by { assert CountedKeys(Added().tasks) == {0}; }
    assert Reaches(g0, 1, g0) by { assert Legal(g0, []) && Final(g0, []) == g0; }
    hide Reaches, Live;
    Go(g0, 1, g0, CallerLoad);
    Go(g0, 1, g1, CallerFetch(0));
    assert Step(g2, CallerPush).tasks == Added().tasks;
    Go(g0, 1, g2, CallerPush);
  }

  /** A worker brings it into its body. */
  lemma GrowStart()
    ensures Reaches(Init(), 1, Grown(0))
  {
    AddedReached();
    var g := Move(Added(), 0, Starting);
    assert Live(g.tasks) <= 1 by {
      assert CountedKeys(Added().tasks) == {0};
      LiveMove(Added().tasks, 0, Starting);
    }
    assert Live(Grown(0).tasks) <= 1 by { GrownLive(0); }
    hide Reaches, Live;
    Go(Init(), 1, Added(), Pop(0));
    assert Move(g, 0, Body).tasks == Grown(0).tasks;
    Go(Init(), 1, g, Wrapper(0));
  }

  /** The three atomic steps of an `add_task` nobody interferes with. */
  lemma GoAdd<T(!new)>(g0: Group<T>, k: nat, g: Group<T>, t: T, child: T)
    requires Reaches(g0, k, g) && g.state.Running? && At(g, t, Body) && child !in g.tasks
    requires Live(g.tasks) + 1 <= k
    ensures Reaches(g0, k, Move(g, child, Queued).(pending := Wrap16(g.pending + 1)))
  {
    var g1 := Move(g, t, Adding);
    var g2 := Step(g1, Fetch(t, child));
    GoFetch(g0, k, g, t, child);
    hide Reaches, Live, Wrap16, IsCounted;
    GoPush(g0, k, g2, t, child);
    assert Move(Move(g2, child, Queued), t, Body).tasks == g.tasks[child := Queued];
  }

  lemma GoPush<T(!new)>(g0: Group<T>, k: nat, g: Group<T>, t: T, child: T)
    requires Reaches(g0, k, g) && At(g, t, Pushing(child)) && child in g.tasks && g.tasks[child].Enqueuing?
    requires Live(g.tasks) <= k
    ensures Reaches(g0, k, Move(Move(g, child, Queued), t, Body))
  {
    LiveMove(g.tasks, child, Queued);
    LiveMove(g.tasks[child := Queued], t, Body);
    hide Reaches, Live;
    Go(g0, k, g, Push(t));
  }

  lemma GoFetch<T(!new)>(g0: Group<T>, k: nat, g: Group<T>, t: T, child: T)
    requires Reaches(g0, k, g) && g.state.Running? && At(g, t, Body) && child !in g.tasks
    requires Live(g.tasks) + 1 <= k
    ensures var g2 := Step(Move(g, t, Adding), Fetch(t, child));
      Reaches(g0, k, g2) && Live(g2.tasks) == Live(g.tasks) + 1
  {
    var g1 := Move(g, t, Adding);
    LiveMove(g.tasks, t, Adding);
    LiveMove(g1.tasks, child, Enqueuing(FromTask(t)));
    LiveMove(g1.tasks[child := Enqueuing(FromTask(t))], t, Pushing(child));
    hide Reaches, Live, Wrap16;
    Go(g0, k, g, AddTask(t));
    Go(g0, k, g1, Fetch(t, child));
  }

  /** Task 0 can add n tasks before any of them is popped. */
  lemma {:induction false} GrownReached(n: nat)
    ensures Reaches(Init(), n + 1, Grown(n))
  {
    hide Reaches, Live, Wrap16;
    if n == 0 {
      GrowStart();
    } else {
      GrownReached(n - 1);
      ReachesMore(Init(), n, n + 1, Grown(n - 1));
      GrownLive(n - 1);
      InUpto(n - 1, 0);
      InUpto(n - 1, n);
      GoAdd(Init(), n + 1, Grown(n - 1), 0, n);
      Wraps(n);
      assert Grown(n).tasks == Grown(n - 1).tasks[n := Queued];
    }
  }

  lemma Overflow<T(!new)>(g0: Group<T>, k: nat, g: Group<T>, t: T)
    requires Reaches(g0, k, g) && At(g, t, Body) && g.pending < 1 && Live(g.tasks) <= k
    ensures Reaches(g0, k, Raise(Decrement(g, t, Done(Threw)), NegativePending))
  {
    var g1 := Move(g, t, Returned);
    LiveMove(g.tasks, t, Returned);
    LiveMove(g1.tasks, t, Done(Threw));
    hide Live, Wrap16, Reaches;
    Go(g0, k, g, Return(t));
    assert g1.tasks[t := Done(Threw)] == g.tasks[t := Done(Threw)];
    Go(g0, k, g1, Wrapper(t));
  }

  lemma OverflowAt(n: nat)
    requires Wrap16(n + 1) < 1
    ensures !SafeUpTo(n + 1)
  {
    GrownReached(n);
    GrownLive(n);
    InUpto(n, 0);
    assert At(Grown(n), 0, Body) && Grown(n).pending < 1;
    hide Reaches, Grown, Live, Upto;
    Overflow(Init(), n + 1, Grown(n), 0);
    assert NegativePending in Raise(Decrement(Grown(n), 0, Done(Threw)), NegativePending).thrown;
  }

  /** One task more than the counter can hold, and the next task to end sees a negative count. */
  lemma OverflowThrows()
    ensures !SafeUpTo(MAX_INT16 + 1)
  {
    hide SafeUpTo;
    OverflowAt(MAX_INT16);
  }

  /** The exact capacity of the group: runs are free of logic errors if and only if they
      never have more than 32767 tasks pending. */
  lemma CapacityIsExact(k: nat)
    ensures SafeUpTo(k) <==> k <= MAX_INT16
  {
    hide Reaches;
    if k <= MAX_INT16 {
      forall g: Group<nat> | Reaches(Init(), k, g) ensures g.thrown == {} {
        ReachesMore(Init(), k, MAX_INT16, g);
        NoLogicErrors(g);
      }
    } else {
      OverflowThrows();
      var g: Group<nat> :| Reaches(Init(), MAX_INT16 + 1, g) && g.thrown != {};
      ReachesMore(Init(), MAX_INT16 + 1, k, g);
    }
  }
}
