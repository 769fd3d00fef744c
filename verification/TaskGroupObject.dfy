/** `task_group` as an object: its atomics, and `add_task`, the wrapper of a task and `cancel` as
    the code writes them. Each method, run without interference, is a run of the state machine
    of module TaskGroups, so what is proved of all runs holds of it. */
module TaskGroupObject {
  import opened TaskGroups

  lemma Extend<T>(g: Group<T>, run: seq<Action<T>>, a: Action<T>)
    requires Legal(g, run) && Enabled(Final(g, run), a)
    ensures Legal(g, run + [a]) && Final(g, run + [a]) == Step(Final(g, run), a)
  {
    assert (run + [a])[..|run|] == run;
  }

  /** The three atomic steps of an `add_task`. */
  function LoadOf<T>(adder: Adder<T>): Action<T> {
    match adder
    case FromCaller => CallerLoad
    case FromTask(t) => Action.AddTask(t)
  }

  function FetchOf<T>(adder: Adder<T>, child: T): Action<T> {
    match adder
    case FromCaller => CallerFetch(child)
    case FromTask(t) => Fetch(t, child)
  }

  function PushOf<T>(adder: Adder<T>): Action<T> {
    match adder
    case FromCaller => CallerPush
    case FromTask(t) => Push(t)
  }

  class TaskGroup<T(!new, ==)> {
    var state: GroupState
    var pendingTasks: int
    var called: seq<Callback>      // on_error and on_finish
    var raised: set<Site>          // logic errors thrown
    ghost var tasks: map<T, Pc<T>>
    ghost var caller: Caller<T>
    ghost var cancelling: bool
    ghost var winner: Winner<T>

    ghost function View(): Group<T>
      reads this
    {
      Group(state, pendingTasks, tasks, caller, cancelling, winner, called, raised)
    }

    constructor ()
      ensures View() == Init()
    {
      state, pendingTasks, called, raised := GroupState.Running, 0, [], {};
      tasks, caller, cancelling, winner := map[], NotCalled, false, Nobody;
    }

    /** `set_state_if_running`. */
    method SetStateIfRunning(newState: GroupState, ghost adder: Winner<T>) returns (exchanged: bool)
      modifies `state, `winner
      ensures exchanged == old(state).Running?
      ensures state == if exchanged then newState else old(state)
      ensures winner == if exchanged then adder else old(winner)
    {
      exchanged := state.Running?;
      if exchanged { state, winner := newState, adder; }
    }

    method Cancel() returns (ghost run: seq<Action<T>>)
      requires !cancelling
      modifies this
      ensures Legal(old(View()), run) && View() == Final(old(View()), run)
      ensures called == if old(state).Running? then old(called) + [OnError] else old(called)
    {
      ghost var before := View();
      run := [];
      Extend(before, run, Action.Cancel);
      run := run + [Action.Cancel];
      var exchanged := SetStateIfRunning(DoneError, Canceller);
      if exchanged {
        cancelling := true;
        Extend(before, run, CancelCallback);
        run := run + [CancelCallback];
        called, cancelling := called + [OnError], false;
      }
    }

    /** The state load at the head of `add_task`. */
    method LoadState(ghost adder: Adder<T>) returns (goesOn: bool)
      requires adder.FromCaller? ==> caller.NotCalled?
      requires adder.FromTask? ==> At(View(), adder.task, Body)
      modifies this
      ensures Enabled(old(View()), LoadOf(adder)) && View() == Step(old(View()), LoadOf(adder))
      ensures goesOn == old(state).Running?
    {
      var s := state;
      goesOn := s.Running?;
      if s.DoneOk? { raised := raised + {AddAfterDone}; }
      match adder {
        case FromCaller => caller := if goesOn then Loaded else Finished;
        case FromTask(t) =>
          if goesOn { tasks := tasks[t := Adding]; }
          if s.DoneOk? { tasks := tasks[t := Caught]; }
      }
    }

    /** Its `fetch_add`. */
    method FetchAdd(child: T, ghost adder: Adder<T>)
      requires Enabled(View(), FetchOf(adder, child))
      modifies this
      ensures View() == Step(old(View()), FetchOf(adder, child))
    {
      pendingTasks := Wrap16(pendingTasks + 1);
      tasks := tasks[child := Enqueuing(adder)];
      match adder { case FromCaller => caller := Counted(child); case FromTask(t) => tasks := tasks[t := Pushing(child)]; }
    }

    /** The hand-over to the pool. */
    method PushToPool(child: T, ghost adder: Adder<T>)
      requires Enabled(View(), PushOf(adder))
      requires adder.FromCaller? ==> caller == Counted(child)
      requires adder.FromTask? ==> At(View(), adder.task, Pushing(child))
      modifies this
      ensures View() == Step(old(View()), PushOf(adder))
    {
      tasks := tasks[child := Queued];
      match adder { case FromCaller => caller := Finished; case FromTask(t) => tasks := tasks[t := Body]; }
    }

    /** `add_task`, called by the thread that owns the group or by the body of task `t`. */
    method AddTask(child: T, ghost adder: Adder<T>) returns (ghost run: seq<Action<T>>)
      requires child !in tasks
      requires adder.FromCaller? ==> caller.NotCalled?
      requires adder.FromTask? ==> At(View(), adder.task, Body)
      modifies this
      ensures Legal(old(View()), run) && View() == Final(old(View()), run)
      ensures child in tasks <==> old(state).Running?
      ensures pendingTasks == if old(state).Running? then Wrap16(old(pendingTasks) + 1) else old(pendingTasks)
      ensures raised == if old(state).DoneOk? then old(raised) + {AddAfterDone} else old(raised)
      ensures adder.FromTask? ==> At(View(), adder.task, if old(state).DoneOk? then Caught else Body)
      ensures adder.FromTask? && old(state).DoneError? ==> View() == old(View())
    {
      ghost var before := View();
      var goesOn := LoadState(adder);
      Extend(before, [], LoadOf(adder));
      run := [LoadOf(adder)];
      if !goesOn { return; }
      FetchAdd(child, adder);
      Extend(before, run, FetchOf(adder, child));
      run := run + [FetchOf(adder, child)];
      PushToPool(child, adder);
      Extend(before, run, PushOf(adder));
      run := run + [PushOf(adder)];
    }

    /** A worker takes the task from the queue. */
    method Take(t: T)
      requires At(View(), t, Queued)
      modifies this
      ensures View() == Step(old(View()), Pop(t))
    {
      tasks := tasks[t := Starting];
    }

    /** The state load at the head of the wrapper. */
    method CheckState(t: T) returns (s: GroupState)
      requires At(View(), t, Starting)
      modifies this
      ensures s == old(state) && View() == Step(old(View()), Wrapper(t))
    {
      s := state;
      tasks := tasks[t := match s case Running => Body case DoneOk => LateDecrement case DoneError => SkipDecrement];
    }

    /** The wrapper up to the call of the task: a worker takes it and checks the state. */
    method Start(t: T) returns (starts: bool, ghost run: seq<Action<T>>)
      requires At(View(), t, Queued)
      modifies this
      ensures Legal(old(View()), run) && View() == Final(old(View()), run)
      ensures starts == old(state).Running? && t in tasks
      ensures tasks[t] == match old(state) case Running => Body case DoneOk => Done(Threw) case DoneError => Done(Skipped)
      ensures pendingTasks == if starts then old(pendingTasks) else Wrap16(old(pendingTasks) - 1)
    {
      ghost var before := View();
      Take(t);
      Extend(before, [], Pop(t));
      run := [Pop(t)];
      var s := CheckState(t);
      Extend(before, run, Wrapper(t));
      run := run + [Wrapper(t)];
      starts := s.Running?;
      if starts { return; }
      Skip(t, s);
      Extend(before, run, Wrapper(t));
      run := run + [Wrapper(t)];
    }

    /** A task that must not start is taken off the counter. */
    method Skip(t: T, loaded: GroupState)
      requires At(View(), t, if loaded.DoneOk? then LateDecrement else SkipDecrement)
      modifies this
      ensures View() == Step(old(View()), Wrapper(t))
    {
      pendingTasks := Wrap16(pendingTasks - 1);
      if loaded.DoneOk? { raised := raised + {StartAfterDone}; }
      tasks := tasks[t := if loaded.DoneOk? then Done(Threw) else Done(Skipped)];
    }

    /** The catch block: the exchange, then the decrement, then the callback. */
    method Fail(t: T) returns (ghost run: seq<Action<T>>)
      requires At(View(), t, Body)
      modifies this
      ensures Legal(old(View()), run) && View() == Final(old(View()), run)
      ensures called == if old(state).Running? then old(called) + [OnError] else old(called)
      ensures pendingTasks == Wrap16(old(pendingTasks) - 1)
    {
      ghost var before := View();
      run := [Throw(t)];
      Extend(before, [], Throw(t));
      tasks := tasks[t := Caught];
      assert View() == Final(before, run);

      Extend(before, run, Wrapper(t));
      run := run + [Wrapper(t)];
      var exchanged := SetStateIfRunning(DoneError, Won(t));
      tasks := tasks[t := CaughtDecrement(exchanged)];
      assert View() == Final(before, run);

      ghost var rest := Report(t, exchanged);
      Concatenate(before, run, rest);
      run := run + rest;
    }

    /** After the exchange: the decrement, then the callback if this was the first error. */
    method Report(t: T, exchanged: bool) returns (ghost run: seq<Action<T>>)
      requires At(View(), t, CaughtDecrement(exchanged))
      modifies this
      ensures Legal(old(View()), run) && View() == Final(old(View()), run)
      ensures called == if exchanged then old(called) + [OnError] else old(called)
      ensures pendingTasks == Wrap16(old(pendingTasks) - 1)
    {
      ghost var before := View();
      run := [Wrapper(t)];
      Extend(before, [], Wrapper(t));
      pendingTasks := Wrap16(pendingTasks - 1);
      tasks := tasks[t := Reporting(exchanged)];
      assert View() == Final(before, run);

      Extend(before, run, Wrapper(t));
      run := run + [Wrapper(t)];
      if exchanged {
        called := called + [OnError];
        tasks := tasks[t := Done(Errored)];
      } else if state.DoneOk? {
        raised := raised + {ErrorAfterDone};
        tasks := tasks[t := Done(Threw)];
      } else {
        tasks := tasks[t := Done(Errored)];
      }
    }

    /** The end of the wrapper: the decrement, and, for the last task, the exchange and the
        callback. */
    method Succeed(t: T) returns (ghost run: seq<Action<T>>)
      requires At(View(), t, Body)
      modifies this
      ensures Legal(old(View()), run) && View() == Final(old(View()), run)
      ensures called == if old(pendingTasks) == 1 && old(state).Running? then old(called) + [OnFinish] else old(called)
      ensures pendingTasks == Wrap16(old(pendingTasks) - 1)
    {
      ghost var before := View();
      run := [Return(t)];
      Extend(before, [], Return(t));
      tasks := tasks[t := Returned];
      assert View() == Final(before, run);

      Extend(before, run, Wrapper(t));
      run := run + [Wrapper(t)];
      var oldValue := pendingTasks;
      pendingTasks := Wrap16(pendingTasks - 1);
      if oldValue < 1 {
        raised := raised + {NegativePending};
        tasks := tasks[t := Done(Threw)];
        return;
      }
      if oldValue > 1 {
        tasks := tasks[t := Done(Ok)];
        return;
      }
      tasks := tasks[t := Zeroing];
      assert View() == Final(before, run);
      ghost var rest := LastTask(t);
      Concatenate(before, run, rest);
      run := run + rest;
    }

    /** The task that brought the counter to 0. */
    method LastTask(t: T) returns (ghost run: seq<Action<T>>)
      requires At(View(), t, Zeroing)
      modifies this
      ensures Legal(old(View()), run) && View() == Final(old(View()), run)
      ensures called == if old(state).Running? then old(called) + [OnFinish] else old(called)
      ensures pendingTasks == old(pendingTasks)
    {
      ghost var before := View();
      run := [Wrapper(t)];
      Extend(before, [], Wrapper(t));
      if state.DoneOk? {
        raised := raised + {ZeroAfterDone};
        tasks := tasks[t := Done(Threw)];
        return;
      }
      tasks := tasks[t := Claiming];
      assert View() == Final(before, run);
      ghost var rest := Claim(t);
      Concatenate(before, run, rest);
      run := run + rest;
    }

    /** The exchange to `DoneOk`, then the callback. */
    method Claim(t: T) returns (ghost run: seq<Action<T>>)
      requires At(View(), t, Claiming)
      modifies this
      ensures Legal(old(View()), run) && View() == Final(old(View()), run)
      ensures called == if old(state).Running? then old(called) + [OnFinish] else old(called)
      ensures pendingTasks == old(pendingTasks)
    {
      ghost var before := View();
      run := [Wrapper(t)];
      Extend(before, [], Wrapper(t));
      var exchanged := SetStateIfRunning(DoneOk, Won(t));
      if !exchanged {
        tasks := tasks[t := Done(Ok)];
        return;
      }
      tasks := tasks[t := Announcing];
      assert View() == Final(before, run);

      Extend(before, run, Wrapper(t));
      run := run + [Wrapper(t)];
      called := called + [OnFinish];
      tasks := tasks[t := Done(Ok)];
    }
  }

  lemma {:induction false} Concatenate<T>(g: Group<T>, first: seq<Action<T>>, second: seq<Action<T>>)
    requires Legal(g, first) && Legal(Final(g, first), second)
    ensures Legal(g, first + second) && Final(g, first + second) == Final(Final(g, first), second)
  {
    hide Step, Enabled;
    if second == [] {
      assert first + second == first;
    } else {
      var n := |second| - 1;
      Concatenate(g, first, second[..n]);
      assert first + second == (first + second[..n]) + [second[n]];
      Extend(g, first + second[..n], second[n]);
    }
  }
}
