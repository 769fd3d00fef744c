/** What a task group still does after the first error: how many tasks are added nevertheless, and
    that none of them is started. */
module TaskGroupErrors {
  import opened TaskGroups
  import opened TaskGroupInvariant
  import opened TaskGroupTheorems

  // ---------------------------------------------------------------- after the first error

  function AddingKeys<T>(tasks: map<T, Pc<T>>): set<T> {
    set t | t in tasks && tasks[t].Adding?
  }

  /** The tasks added so far and those whose `add_task` has already loaded `Running`. */
  function Committed<T>(g: Group<T>): nat {
    |g.tasks| + |AddingKeys(g.tasks)| + if g.caller.Loaded? then 1 else 0
  }

  lemma AddingMove<T>(tasks: map<T, Pc<T>>, t: T, pc: Pc<T>)
    ensures |AddingKeys(tasks[t := pc])|
         == |AddingKeys(tasks)| - (if t in tasks && tasks[t].Adding? then 1 else 0) + (if pc.Adding? then 1 else 0)
  {
    var before, after := AddingKeys(tasks), AddingKeys(tasks[t := pc]);
    assert before - {t} == after - {t};
    assert |before - {t}| == |before| - (if t in before then 1 else 0);
    assert |after - {t}| == |after| - (if t in after then 1 else 0);
  }

  lemma MoveCommitted<T>(g: Group<T>, t: T, pc: Pc<T>)
    ensures Committed(Move(g, t, pc))
         == Committed(g) + (if t in g.tasks then 0 else 1)
            - (if t in g.tasks && g.tasks[t].Adding? then 1 else 0) + (if pc.Adding? then 1 else 0)
  {
    AddingMove(g.tasks, t, pc);
    assert Move(g, t, pc).tasks.Keys == g.tasks.Keys + {t};
    hide AddingKeys;
  }

  /** After an error the tasks ever added are those whose adder had already loaded `Running`:
      no later step raises their number. */
  lemma StepAfterError<T(!new)>(g: Group<T>, a: Action<T>)
    requires g.state.DoneError? && AddersOk(g) && Enabled(g, a)
    ensures Committed(Step(g, a)) <= Committed(g)
  {
    match a
    case Wrapper(t) =>
      WrapperShape(g, t);
      MoveCommitted(g, t, Step(g, a).tasks[t]);
    case CallerFetch(child) => MoveCommitted(g, child, Enqueuing(FromCaller));
    case CallerPush => MoveCommitted(g, g.caller.child, Queued);
    case Fetch(t, child) =>
      MoveCommitted(g, child, Enqueuing(FromTask(t)));
      MoveCommitted(Count(g, child, FromTask(t)), t, Pushing(child));
    case Push(t) =>
      MoveCommitted(g, g.tasks[t].child, Queued);
      MoveCommitted(Move(g, g.tasks[t].child, Queued), t, Body);
    case AddTask(t) =>
    case Pop(t) => MoveCommitted(g, t, Starting);
    case Return(t) => MoveCommitted(g, t, Returned);
    case Throw(t) => MoveCommitted(g, t, Caught);
    case CallerLoad =>
    case Cancel =>
    case CancelCallback =>
  }

  lemma LocalKeepsAdders<T(!new)>(g: Group<T>, a: Action<T>)
    requires AddersOk(g) && Enabled(g, a) && IsLocal(a)
    ensures AddersOk(Step(g, a))
  {
    if Step(g, a) != g { MoveKeepsAdders(g, Step(g, a), a.task, Step(g, a).tasks[a.task]); }
  }

  /** Whatever the counter shows, every `add_task` under way has its one enqueuing task. */
  lemma StepKeepsAdders<T(!new)>(g: Group<T>, a: Action<T>)
    requires AddersOk(g) && Enabled(g, a)
    ensures AddersOk(Step(g, a))
  {
    if IsLocal(a) {
      LocalKeepsAdders(g, a);
    } else {
      match a
      case CallerLoad =>
      case CallerFetch(child) =>
      case CallerPush =>
      case Cancel =>
      case CancelCallback =>
      case Fetch(t, child) => FetchKeepsAdders(g, t, child);
      case Push(t) => PushKeepsAdders(g, t);
      case Wrapper(t) =>
        WrapperShape(g, t);
        MoveKeepsAdders(g, WrapperStep(g, t), t, WrapperStep(g, t).tasks[t]);
    }
  }

  lemma {:induction false} RunKeepsAdders<T(!new)>(g: Group<T>, run: seq<Action<T>>)
    requires AddersOk(g) && Legal(g, run)
    ensures AddersOk(Final(g, run))
  {
    hide AddersOk, Step;
    if run == [] {
    } else {
      var before := run[..|run| - 1];
      RunKeepsAdders(g, before);
      StepKeepsAdders(Final(g, before), run[|run| - 1]);
    }
  }

  lemma ReachedAdders<T(!new)>(k: nat, g: Group<T>)
    requires Reaches(Init(), k, g)
    ensures AddersOk(g)
  {
    var run: seq<Action<T>> :| Legal(Init(), run) && Bounded(Init(), run, k) && Final(Init(), run) == g;
    RunKeepsAdders(Init<T>(), run);
  }

  lemma StepForgetsNone<T>(g: Group<T>, a: Action<T>)
    requires Enabled(g, a)
    ensures g.tasks.Keys <= Step(g, a).tasks.Keys
  {
    if a.Wrapper? {
      WrapperShape(g, a.task);
      hide WrapperStep;
    }
  }

  /** Tasks are never forgotten. */
  lemma {:induction false} TasksStay<T>(g: Group<T>, run: seq<Action<T>>)
    requires Legal(g, run)
    ensures g.tasks.Keys <= Final(g, run).tasks.Keys
  {
    hide Step, Enabled;
    if run == [] {
    } else {
      TasksStay(g, run[..|run| - 1]);
      StepForgetsNone(Final(g, run[..|run| - 1]), run[|run| - 1]);
    }
  }

  lemma {:induction false} RunAfterError<T(!new)>(g: Group<T>, run: seq<Action<T>>)
    requires g.state.DoneError? && AddersOk(g) && Legal(g, run)
    ensures Committed(Final(g, run)) <= Committed(g)
  {
    hide AddersOk, Step, Committed;
    if run == [] {
    } else {
      var before := run[..|run| - 1];
      RunAfterError(g, before);
      RunKeepsAdders(g, before);
      DoneIsFinal(g, before);
      StepAfterError(Final(g, before), run[|run| - 1]);
    }
  }

  // ---------------------------------------------------------------- all of them are added

  /** A name that is not taken. */
  lemma {:induction false} Unused(keys: set<nat>) returns (n: nat)
    ensures forall t | t in keys :: t < n
  {
    if keys == {} {
      n := 0;
    } else {
      var t :| t in keys;
      var m := Unused(keys - {t});
      n := if t < m then m else t + 1;
      assert forall u | u in keys :: u == t || u in keys - {t};
    }
  }

  lemma FetchAdds(g: Group<nat>, t: nat, child: nat)
    requires At(g, t, Adding) && child !in g.tasks
    ensures var g' := Step(g, Fetch(t, child));
      |AddingKeys(g'.tasks)| == |AddingKeys(g.tasks)| - 1 && |g'.tasks| == |g.tasks| + 1 && g'.caller == g.caller
  {
    AddingMove(g.tasks, child, Enqueuing(FromTask(t)));
    AddingMove(g.tasks[child := Enqueuing(FromTask(t))], t, Pushing(child));
    assert Step(g, Fetch(t, child)).tasks.Keys == g.tasks.Keys + {child};
    hide AddingKeys;
  }

  /** The adders that are past their load can all go on to count their task. */
  lemma {:induction false} AllAdd(g: Group<nat>, run: seq<Action<nat>>) returns (longer: seq<Action<nat>>)
    requires Legal(g, run) && !Final(g, run).caller.Loaded?
    ensures Legal(g, longer) && |Final(g, longer).tasks| == Committed(Final(g, run))
    decreases |AddingKeys(Final(g, run).tasks)|
  {
    hide Step;
    var g1 := Final(g, run);
    if AddingKeys(g1.tasks) == {} {
      longer := run;
    } else {
      var t :| t in AddingKeys(g1.tasks);
      var child := Unused(g1.tasks.Keys);
      FetchAdds(g1, t, child);
      var next: seq<Action<nat>> := run + [Fetch(t, child)];
      assert next[..|run|] == run;
      assert Final(g, next) == Step(g1, Fetch(t, child));
      longer := AllAdd(g, next);
    }
  }

  lemma CommittedIsReached(g: Group<nat>) returns (run: seq<Action<nat>>)
    requires AddersOk(g)
    ensures Legal(g, run) && |Final(g, run).tasks| == Committed(g)
  {
    if g.caller.Loaded? {
      run := [CallerFetch(0)];
      assert run[..0] == [];
      assert Final(g, run).tasks == map[0 := Pc<nat>.Enqueuing(FromCaller)];
      assert AddingKeys(g.tasks) == {};
    } else {
      run := AllAdd(g, []);
    }
  }

  /** What is promised of a group in an error state. */
  ghost predicate AddsNothing(g: Group<nat>) {
    forall run | Legal(g, run) :: Final(g, run).tasks.Keys == g.tasks.Keys
  }

  lemma SameSize<T>(a: set<T>, b: set<T>)
    requires a <= b && |b| <= |a|
    ensures a == b
  {
    assert |b - a| == |b| - |a|;
    assert b == a + (b - a);
  }

  /** After an error the tasks that are still added are at most the adders that loaded `Running`
      before it, and some continuation adds that many. */
  lemma AddedAfterErrorIsBounded(k: nat, g: Group<nat>)
    requires Reaches(Init(), k, g) && g.state.DoneError?
    ensures forall run | Legal(g, run) :: |Final(g, run).tasks| <= Committed(g)
    ensures exists run :: Legal(g, run) && |Final(g, run).tasks| == Committed(g)
  {
    ReachedAdders(k, g);
    hide AddersOk, Step, Reaches, AddingKeys;
    forall run | Legal(g, run) ensures |Final(g, run).tasks| <= Committed(g) {
      RunAfterError(g, run);
    }
    var run := CommittedIsReached(g);
  }

  /** The group's own documentation promises that nothing is added after an error. That holds
      exactly if no `add_task` stands between its load of the state and its `fetch_add`. */
  lemma NothingAddedIsExact(k: nat, g: Group<nat>)
    requires Reaches(Init(), k, g) && g.state.DoneError?
    ensures AddsNothing(g) <==> !g.caller.Loaded? && forall t | t in g.tasks :: !g.tasks[t].Adding?
  {
    ReachedAdders(k, g);
    hide AddersOk, Step, Reaches;
    if !g.caller.Loaded? && forall t | t in g.tasks :: !g.tasks[t].Adding? {
      assert AddingKeys(g.tasks) == {};
      forall run | Legal(g, run) ensures Final(g, run).tasks.Keys == g.tasks.Keys {
        RunAfterError(g, run);
        TasksStay(g, run);
        SameSize(g.tasks.Keys, Final(g, run).tasks.Keys);
      }
    } else {
      var run := CommittedIsReached(g);
      assert g.caller.Loaded? || AddingKeys(g.tasks) != {} by {
        if !g.caller.Loaded? {
          var t :| t in g.tasks && g.tasks[t].Adding?;
          assert t in AddingKeys(g.tasks);
        }
      }
      assert |Final(g, run).tasks.Keys| > |g.tasks.Keys|;
    }
  }

  // ---------------------------------------------------------------- one such run

  /** `cancel` between the state load and the `fetch_add` of an `add_task`. */
  function CancelledAdding(): Group<nat> {
    Group(DoneError, 1, map[0 := Adding], Finished, false, Canceller, [OnError], {})
  }

  /** The state before the `cancel`. */
  function OneAdding(): Group<nat> {
    Group(Running, 1, map[0 := Adding], Finished, false, Nobody, [], {})
  }

  lemma OneAddingReached()
    ensures Reaches(Init(), 2, OneAdding()) && Live(OneAdding().tasks) <= 2
  {
    assert Live(OneAdding().tasks) <= 2 by { assert CountedKeys(OneAdding().tasks) == {0}; }
    assert Enabled(Grown(0), AddTask(0)) && Step(Grown(0), AddTask(0)) == OneAdding() by { InUpto(0, 0); }
    hide Reaches, Live, Grown;
    GrowStart();
    ReachesMore(Init(), 1, 2, Grown(0));
    Go(Init(), 2, Grown(0), AddTask(0));
  }

  lemma CancelledAddingReached()
    ensures Reaches(Init(), 2, CancelledAdding())
  {
    var g := OneAdding();
    assert g.(state := DoneError, winner := Canceller, callbacks := g.callbacks + [OnError], cancelling := false) == CancelledAdding();
    hide Reaches, Live;
    OneAddingReached();
    CancelReached(g);
  }

  lemma CancelReached(g: Group<nat>)
    requires Reaches(Init(), 2, g) && g.state.Running? && Live(g.tasks) <= 2
    ensures Reaches(Init(), 2, g.(state := DoneError, winner := Canceller, callbacks := g.callbacks + [OnError], cancelling := false))
  {
    hide Reaches, Live;
    Go(Init(), 2, g, Cancel);
    Go(Init(), 2, Step(g, Cancel), CancelCallback);
  }

  /** Where the documentation goes wrong: a reachable state after `on_error` was called, in which a
      task whose adder loaded `Running` before the error is still to be added. */
  lemma AddedAfterError()
    ensures exists g: Group<nat> ::
      Reaches(Init(), 2, g) && g.state.DoneError? && g.callbacks == [OnError] && !AddsNothing(g)
  {
    CancelledAddingReached();
    hide Reaches, AddsNothing;
    var g := CancelledAdding();
    NothingAddedIsExact(2, g);
    assert 0 in g.tasks && g.tasks[0].Adding?;
  }

  // ---------------------------------------------------------------- none is started

  /** The tasks whose closure has been entered and not left. */
  function Inside<T>(g: Group<T>): set<T> {
    set t | t in g.tasks && (g.tasks[t].Body? || g.tasks[t].Adding? || g.tasks[t].Pushing?)
  }

  lemma StepEntersNone<T(!new)>(g: Group<T>, a: Action<T>)
    requires !g.state.Running? && AddersOk(g) && Enabled(g, a)
    ensures Inside(Step(g, a)) <= Inside(g)
  {
    if a.Wrapper? {
      WrapperShape(g, a.task);
      WrapperEntersNone(g, a.task);
      hide WrapperStep;
    }
  }

  lemma WrapperEntersNone<T>(g: Group<T>, t: T)
    requires !g.state.Running? && Enabled(g, Wrapper(t))
    ensures t in WrapperStep(g, t).tasks && !WrapperStep(g, t).tasks[t].Body? && !WrapperStep(g, t).tasks[t].Pushing?
  {
  }

  /** A task starts only if its own state load came before the group's end: from then on no
      closure is entered, and those inside can only leave. */
  lemma {:induction false} NoneStartsAfterTheEnd<T(!new)>(g: Group<T>, run: seq<Action<T>>)
    requires Inv(g) && !g.state.Running? && Legal(g, run) && Bounded(g, run, MAX_INT16)
    ensures Inside(Final(g, run)) <= Inside(g)
  {
    hide Inv, Step, Inside;
    if run == [] {
    } else {
      var before := run[..|run| - 1];
      NoneStartsAfterTheEnd(g, before);
      RunKeepsInv(g, before);
      DoneIsFinal(g, before);
      InvHasAdders(Final(g, before));
      StepEntersNone(Final(g, before), run[|run| - 1]);
    }
  }

  lemma InvHasAdders<T(!new)>(g: Group<T>)
    requires Inv(g)
    ensures AddersOk(g)
  {
  }
}
