/** `thread_pool` as an object: the critical sections of `add_task` and of the worker loop, and
    `blocking_shutdown`, as the code writes them. Each method, run without interference, is a run
    of the state machine of module ThreadPools. */
module ThreadPoolObject {
  import opened ThreadPools

  lemma Extend<T>(p: Pool<T>, run: seq<Event<T>>, e: Event<T>)
    requires Legal(p, run) && Enabled(Final(p, run), e)
    ensures Legal(p, run + [e]) && Final(p, run + [e]) == Step(Final(p, run), e)
  {
    assert (run + [e])[..|run|] == run;
  }

  class ThreadPool<T(!new, ==)> {
    var tasks: seq<T>
    var shutdown: bool
    ghost var workers: seq<Pc<T>>
    ghost var mutex: Holder
    ghost var adder: AdderPc<T>
    ghost var closer: CloserPc
    ghost var submitted: seq<T>
    ghost var popped: seq<T>
    ghost var started: seq<T>
    ghost var late: seq<nat>

    ghost function View(): Pool<T>
      reads this
    {
      Pool(tasks, workers, mutex, shutdown, adder, closer, submitted, popped, started, late)
    }

    constructor (n: nat)
      ensures View() == Init(n)
    {
      tasks, shutdown := [], false;
      workers, mutex, adder, closer := seq(n, _ => AtLoop), Free, Outside, NotCalled;
      submitted, popped, started, late := [], [], [], seq(n, _ => 0);
    }

    /** `add_task`: pushes under the mutex, and wakes a sleeping worker if there is one. */
    method AddTask(task: T) returns (ghost run: seq<Event<T>>)
      requires mutex.Free? && adder.Outside?
      modifies this
      ensures Legal(old(View()), run) && View() == Final(old(View()), run)
      ensures tasks == old(tasks) + [task] && submitted == old(submitted) + [task]
      ensures mutex.Free? && adder.Outside?
      ensures !NobodyAsleep(old(View())) ==>
        exists i: nat :: i < |old(workers)| && old(workers)[i].Asleep? && workers == old(workers)[i := Woken]
    {
      ghost var before := View();
      Extend(before, [], Enter(task));
      run := [Enter(task)];
      Extend(before, run, Push);
      run := run + [Push];
      tasks, submitted := tasks + [task], submitted + [task];
      mutex, adder := ByAdder, Notifies;
      ghost var notify := Notify();
      Extend(before, run, notify);
      run := run + [notify];
      Extend(before, run, Leave);
      run := run + [Leave];
      mutex, adder := Free, Outside;
    }

    /** `notify_one`. */
    ghost method Notify() returns (e: Event<T>)
      requires adder.Notifies?
      modifies `workers, `adder
      ensures Enabled(old(View()), e) && View() == Step(old(View()), e) && adder == Releases
      ensures if NobodyAsleep(old(View())) then workers == old(workers)
              else exists i: nat :: i < |old(workers)| && old(workers)[i].Asleep? && workers == old(workers)[i := Woken]
    {
      if NobodyAsleep(View()) {
        e := NotifyNobody;
      } else {
        var i: nat :| i < |workers| && workers[i].Asleep?;
        e := NotifyOne(i);
        workers := workers[i := Woken];
      }
      adder := Releases;
    }

    /** One turn of the loop of worker `i`, up to the call of the task: the task it takes, or
        none if it sleeps or leaves. */
    method Turn(ghost i: nat) returns (task: seq<T>, ghost run: seq<Event<T>>)
      requires mutex.Free? && i < |workers| && workers[i].AtLoop?
      modifies this
      ensures Legal(old(View()), run) && View() == Final(old(View()), run) && mutex.Free?
      ensures |workers| == |old(workers)| && workers == old(workers)[i := workers[i]]
      ensures shutdown == old(shutdown)
      ensures if old(shutdown) then task == [] && tasks == old(tasks) && workers[i].Exited?
              else if old(tasks) == [] then task == [] && tasks == [] && workers[i].Asleep?
              else task == [old(tasks)[0]] && tasks == old(tasks)[1..] && workers[i] == Unlocked(old(tasks)[0])
    {
      ghost var before := View();
      task, run := [], [];
      if shutdown {
        Extend(before, run, Worker(i));
        run := run + [Worker(i)];
        workers := workers[i := Exited];
        return;
      }
      run := Lock(i);
      if tasks == [] {
        Extend(before, run, Worker(i));
        run := run + [Worker(i)];
        workers, mutex := workers[i := Asleep], Free;
        return;
      }
      ghost var rest;
      task, rest := Pop(i);
      Concatenate(before, run, rest);
      run := run + rest;
    }

    /** The worker takes the mutex and evaluates the predicate of the wait. */
    ghost method Lock(i: nat) returns (run: seq<Event<T>>)
      requires mutex.Free? && i < |workers| && workers[i].AtLoop? && !shutdown
      modifies `workers, `mutex
      ensures Legal(old(View()), run) && View() == Final(old(View()), run)
      ensures workers == old(workers)[i := if tasks == [] then AtSleep else AtCheck]
    {
      var before := View();
      Extend(before, [], Worker(i));
      run := [Worker(i)];
      Extend(before, run, Worker(i));
      run := run + [Worker(i)];
      Extend(before, run, Worker(i));
      run := run + [Worker(i)];
      mutex := ByWorker(i);
      workers := workers[i := if tasks == [] then AtSleep else AtCheck];
    }

    /** The worker takes the front of the queue and releases the mutex. */
    method Pop(ghost i: nat) returns (task: seq<T>, ghost run: seq<Event<T>>)
      requires i < |workers| && workers[i].AtCheck? && !shutdown && tasks != []
      modifies this
      ensures Legal(old(View()), run) && View() == Final(old(View()), run) && mutex.Free?
      ensures workers == old(workers)[i := Unlocked(old(tasks)[0])] && shutdown == old(shutdown)
      ensures task == [old(tasks)[0]] && tasks == old(tasks)[1..]
    {
      ghost var before := View();
      Extend(before, [], Worker(i));
      run := [Worker(i)];
      workers := workers[i := AtPop];
      assert View() == Final(before, run);

      Extend(before, run, Worker(i));
      run := run + [Worker(i)];
      var front := tasks[0];
      task, tasks, popped := [front], tasks[1..], popped + [front];
      workers := workers[i := AtUnlock(front)];
      assert View() == Final(before, run);
      Extend(before, run, Worker(i));
      run := run + [Worker(i)];
      Unlock(i);
    }

    /** The worker releases the mutex. */
    ghost method Unlock(i: nat)
      requires i < |workers| && workers[i].AtUnlock?
      modifies `workers, `mutex
      ensures View() == Step(old(View()), Worker(i)) && mutex.Free?
      ensures workers == old(workers)[i := Unlocked(old(workers)[i].task)]
    {
      workers, mutex := workers[i := Unlocked(workers[i].task)], Free;
    }

    /** `blocking_shutdown` up to the joins. */
    method BlockingShutdown() returns (ghost run: seq<Event<T>>)
      requires closer.NotCalled? && !shutdown
      modifies this
      ensures Legal(old(View()), run) && View() == Final(old(View()), run)
      ensures shutdown && tasks == old(tasks) && closer.Joins? && NobodyAsleep(View())
    {
      ghost var before := View();
      Extend(before, [], CallShutdown);
      run := [CallShutdown];
      Extend(before, run, SetFlag);
      run := run + [SetFlag];
      shutdown := true;
      Extend(before, run, NotifyAll);
      run := run + [NotifyAll];
      ghost var asleep := workers;
      workers, closer := seq(|asleep|, i requires 0 <= i < |asleep| => Wake(asleep[i])), Joins;
      assert workers == Step(Final(before, run[..2]), NotifyAll).workers;
    }
  }

  lemma {:induction false} Concatenate<T>(p: Pool<T>, first: seq<Event<T>>, second: seq<Event<T>>)
    requires Legal(p, first) && Legal(Final(p, first), second)
    ensures Legal(p, first + second) && Final(p, first + second) == Final(Final(p, first), second)
  {
    hide Step, Enabled;
    if second == [] {
      assert first + second == first;
    } else {
      var n := |second| - 1;
      Concatenate(p, first, second[..n]);
      assert first + second == (first + second[..n]) + [second[n]];
      Extend(p, first + second[..n], second[n]);
    }
  }
}
