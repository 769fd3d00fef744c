/** What every step of a task group keeps, as long as the 16-bit counter is not overrun. */
module TaskGroupInvariant {
  import opened TaskGroups

  // ---------------------------------------------------------------- counting

  lemma LiveMove<T>(tasks: map<T, Pc<T>>, t: T, pc: Pc<T>)
    ensures Live(tasks[t := pc])
         == Live(tasks) - (if t in tasks && IsCounted(tasks[t]) then 1 else 0) + (if IsCounted(pc) then 1 else 0)
  {
    var before, after := CountedKeys(tasks), CountedKeys(tasks[t := pc]);
    assert before - {t} == after - {t};
    assert |before - {t}| == |before| - (if t in before then 1 else 0);
    assert |after - {t}| == |after| - (if t in after then 1 else 0);
  }

  lemma LiveZero<T>(tasks: map<T, Pc<T>>)
    ensures Live(tasks) == 0 <==> forall t | t in tasks :: !IsCounted(tasks[t])
  {
    if Live(tasks) == 0 {
      forall t | t in tasks ensures !IsCounted(tasks[t]) {
        assert t !in CountedKeys(tasks);
      }
    } else {
      var t :| t in CountedKeys(tasks);
    }
  }

  // ---------------------------------------------------------------- invariant

  /** Every `add_task` between its `fetch_add` and its push owns one enqueuing task. */
  ghost predicate AddersOk<T(!new)>(g: Group<T>) {
    && (g.caller.NotCalled? || g.caller.Loaded? ==> g.tasks == map[])
    && (g.caller.Counted? ==> At(g, g.caller.child, Enqueuing(FromCaller)))
    && (forall t | t in g.tasks && g.tasks[t].Pushing? :: At(g, g.tasks[t].child, Enqueuing(FromTask(t))))
    && (forall t | t in g.tasks && g.tasks[t].Enqueuing? ::
         match g.tasks[t].adder
         case FromCaller => g.caller == Counted(t)
         case FromTask(p) => At(g, p, Pushing(t)))
  }

  /** An error, or a task skipped because of one, is only seen once the state says so. */
  ghost predicate ErrorsOk<T(!new)>(g: Group<T>) {
    forall t | t in g.tasks ::
      var pc := g.tasks[t];
      && !pc.LateDecrement? && pc != Done(Threw)
      && (pc.SkipDecrement? || pc.CaughtDecrement? || pc.Reporting? || pc == Done(Errored) || pc == Done(Skipped)
          ==> g.state.DoneError?)
  }

  predicate IsZeroer<T>(pc: Pc<T>) {
    pc.Zeroing? || pc.Claiming?
  }

  /** Zero is reached at most once, by one task, and nothing is pending from then on. */
  ghost predicate ZeroOk<T(!new)>(g: Group<T>) {
    && (g.state.DoneOk? ==> Live(g.tasks) == 0 && g.caller.Finished?)
    && (forall t | t in g.tasks && IsZeroer(g.tasks[t]) :: Live(g.tasks) == 0 && !g.state.DoneOk?)
    && (forall t, u | t in g.tasks && u in g.tasks && IsZeroer(g.tasks[t]) && IsZeroer(g.tasks[u]) :: t == u)
    && (g.state.Running? && Live(g.tasks) == 0 && g.tasks != map[] ==>
         exists t :: t in g.tasks && IsZeroer(g.tasks[t]))
  }

  /** Only the thread whose exchange ended `Running` makes a callback, and it makes one. */
  ghost predicate WinnerOk<T(!new)>(g: Group<T>) {
    && (g.state.Running? <==> g.winner.Nobody?)
    && (g.cancelling ==> g.winner.Canceller?)
    && (g.winner.Canceller? ==> g.state.DoneError?)
    && (forall t | t in g.tasks ::
         var pc := g.tasks[t];
         && (pc == CaughtDecrement(true) || pc == Reporting(true) ==> g.winner == Won(t))
         && (pc.Announcing? ==> g.state.DoneOk? && g.winner == Won(t)))
    && (g.winner.Won? ==>
         && g.winner.task in g.tasks
         && var pc := g.tasks[g.winner.task];
            if g.state.DoneOk? then pc.Announcing? || pc == Done(Ok)
            else pc == CaughtDecrement(true) || pc == Reporting(true) || pc == Done(Errored))
    && g.callbacks == Callbacks(g)
  }

  /** What has been called back, read off the winner. */
  function Callbacks<T>(g: Group<T>): seq<Callback> {
    match g.winner
    case Nobody => []
    case Canceller => if g.cancelling then [] else [OnError]
    case Won(t) =>
      if At(g, t, Done(Ok)) then [OnFinish]
      else if At(g, t, Done(Errored)) then [OnError]
      else []
  }

  ghost predicate Inv<T(!new)>(g: Group<T>) {
    && g.pending == Wrap16(Live(g.tasks))
    && AddersOk(g) && ErrorsOk(g) && ZeroOk(g) && WinnerOk(g)
    && g.thrown == {}
  }

  predicate Links<T>(pc: Pc<T>) {
    pc.Pushing? || pc.Enqueuing?
  }

  lemma MoveKeepsAdders<T(!new)>(g: Group<T>, g': Group<T>, t: T, pc: Pc<T>)
    requires AddersOk(g) && t in g.tasks && !Links(g.tasks[t]) && !Links(pc)
    requires g'.tasks == g.tasks[t := pc] && g'.caller == g.caller
    ensures AddersOk(g')
  {
  }

  lemma FetchKeepsAdders<T(!new)>(g: Group<T>, t: T, child: T)
    requires AddersOk(g) && Enabled(g, Fetch(t, child))
    ensures AddersOk(Step(g, Fetch(t, child)))
  {
  }

  lemma PushKeepsAdders<T(!new)>(g: Group<T>, t: T)
    requires AddersOk(g) && Enabled(g, Push(t))
    ensures AddersOk(Step(g, Push(t)))
  {
  }

  /** The child an adder is about to push is enqueuing. */
  lemma PushedChild<T(!new)>(g: Group<T>, a: Action<T>)
    requires Inv(g) && Enabled(g, a)
    ensures a.CallerPush? ==> At(g, g.caller.child, Enqueuing(FromCaller))
    ensures a.Push? ==> At(g, g.tasks[a.task].child, Enqueuing(FromTask(a.task)))
  {
  }

  /** What a wrapper step may touch. */
  lemma WrapperShape<T>(g: Group<T>, t: T)
    requires Enabled(g, Wrapper(t))
    ensures var g' := WrapperStep(g, t);
      && g'.caller == g.caller && g'.cancelling == g.cancelling
      && t in g'.tasks && g'.tasks == g.tasks[t := g'.tasks[t]]
      && !Links(g'.tasks[t]) && !g'.tasks[t].Queued? && !g'.tasks[t].Adding?
      && (!g.state.Running? ==> g'.state == g.state)
  {
    match g.tasks[t]
    case Starting =>
    case LateDecrement =>
    case SkipDecrement =>
    case Caught =>
    case CaughtDecrement(exchanged) =>
    case Reporting(exchanged) =>
    case Returned =>
    case Zeroing =>
    case Claiming =>
    case Announcing =>
  }

  /** A pending task shows that the group is not finished. */
  lemma PendingNotDone<T(!new)>(g: Group<T>, t: T)
    requires Inv(g) && t in g.tasks && IsCounted(g.tasks[t])
    ensures !g.state.DoneOk? && 1 <= Live(g.tasks)
    ensures forall u | u in g.tasks :: !IsZeroer(g.tasks[u])
    ensures Live(g.tasks) <= MAX_INT16 ==> g.pending == Live(g.tasks)
  {
    LiveZero(g.tasks);
  }

  /** The steps that move one pending task and touch nothing else. */
  predicate IsLocal<T>(a: Action<T>) {
    a.Pop? || a.AddTask? || a.Return? || a.Throw?
  }

  predicate IsPlain<T>(pc: Pc<T>) {
    pc.Queued? || pc.Starting? || pc.Body? || pc.Adding? || pc.Returned? || pc.Caught?
  }

  lemma LocalShape<T(!new)>(g: Group<T>, a: Action<T>)
    requires Inv(g) && Enabled(g, a) && IsLocal(a)
    ensures a.task in g.tasks && IsPlain(g.tasks[a.task])
    ensures var g' := Step(g, a);
      a.task in g'.tasks && g' == Move(g, a.task, g'.tasks[a.task]) && IsPlain(g'.tasks[a.task])
  {
    PendingNotDone(g, a.task);
  }

  lemma StepKeepsAdders<T(!new)>(g: Group<T>, a: Action<T>)
    requires Inv(g) && Enabled(g, a)
    ensures AddersOk(Step(g, a))
  {
    if IsLocal(a) {
      LocalShape(g, a);
      MoveKeepsAdders(g, Step(g, a), a.task, Step(g, a).tasks[a.task]);
    } else {
      match a
      case CallerLoad =>
      case CallerFetch(child) =>
      case CallerPush =>
      case Cancel =>
      case CancelCallback =>
      case Fetch(t, child) => FetchKeepsAdders(g, t, child);
      case Push(t) => PushKeepsAdders(g, t);
      case Wrapper(t) =>
        WrapperShape(g, t);
        MoveKeepsAdders(g, WrapperStep(g, t), t, WrapperStep(g, t).tasks[t]);
    }
  }

  lemma WrapperKeepsErrors<T(!new)>(g: Group<T>, t: T)
    requires Inv(g) && Enabled(g, Wrapper(t)) && Live(g.tasks) <= MAX_INT16
    ensures ErrorsOk(WrapperStep(g, t)) && WrapperStep(g, t).thrown == {}
  {
    hide AddersOk, WinnerOk;
    if IsCounted(g.tasks[t]) { PendingNotDone(g, t); }
    match g.tasks[t]
    case Starting =>
    case LateDecrement =>
    case SkipDecrement =>
    case Caught =>
    case CaughtDecrement(exchanged) =>
    case Reporting(exchanged) =>
    case Returned =>
    case Zeroing =>
    case Claiming =>
    case Announcing =>
  }

  lemma StepKeepsErrors<T(!new)>(g: Group<T>, a: Action<T>)
    requires Inv(g) && Enabled(g, a) && Live(g.tasks) <= MAX_INT16
    ensures ErrorsOk(Step(g, a)) && Step(g, a).thrown == {}
  {
    hide AddersOk, WinnerOk;
    if IsLocal(a) {
      LocalShape(g, a);
    } else {
      match a
      case Wrapper(t) => WrapperKeepsErrors(g, t);
      case CallerLoad =>
      case CallerFetch(child) =>
      case CallerPush =>
      case Cancel =>
      case CancelCallback =>
      case Fetch(t, child) =>
      case Push(t) =>
    }
  }

  predicate MakesCallback<T>(pc: Pc<T>) {
    pc == CaughtDecrement(true) || pc == Reporting(true) || pc.Announcing?
  }

  /** Moves of a task that neither won nor wins leave the callbacks alone. */
  lemma QuietKeepsWinner<T(!new)>(g: Group<T>, g': Group<T>, t: T)
    requires WinnerOk(g) && t in g'.tasks && g'.tasks == g.tasks[t := g'.tasks[t]]
    requires t in g.tasks ==> !MakesCallback(g.tasks[t]) && !g.tasks[t].Done?
    requires !MakesCallback(g'.tasks[t])
    requires g'.state == g.state && g'.winner == g.winner && g'.cancelling == g.cancelling
    requires g'.callbacks == g.callbacks
    ensures WinnerOk(g')
  {
  }

  lemma WrapperQuiet<T>(g: Group<T>, t: T)
    requires Enabled(g, Wrapper(t)) && !MakesCallback(g.tasks[t])
    requires (g.tasks[t].Caught? || g.tasks[t].Claiming?) ==> !g.state.Running?
    ensures var g' := WrapperStep(g, t);
      && g'.state == g.state && g'.winner == g.winner && g'.callbacks == g.callbacks
      && t in g'.tasks && !MakesCallback(g'.tasks[t])
  {
    match g.tasks[t]
    case Starting =>
    case LateDecrement =>
    case SkipDecrement =>
    case Caught =>
    case CaughtDecrement(exchanged) =>
    case Reporting(exchanged) =>
    case Returned =>
    case Zeroing =>
    case Claiming =>
    case Announcing =>
  }

  lemma WrapperKeepsWinner<T(!new)>(g: Group<T>, t: T)
    requires Inv(g) && Enabled(g, Wrapper(t))
    ensures WinnerOk(WrapperStep(g, t))
  {
    hide AddersOk, ZeroOk, ErrorsOk;
    var pc := g.tasks[t];
    if MakesCallback(pc) {
    } else if g.state.Running? && (pc.Caught? || pc.Claiming?) {
    } else {
      WrapperShape(g, t);
      WrapperQuiet(g, t);
      QuietKeepsWinner(g, WrapperStep(g, t), t);
    }
  }

  lemma CallerKeepsWinner<T(!new)>(g: Group<T>, a: Action<T>)
    requires Inv(g) && Enabled(g, a) && (a.CallerFetch? || a.CallerPush?)
    ensures WinnerOk(Step(g, a))
  {
    hide WinnerOk;
    match a
    case CallerFetch(child) => QuietKeepsWinner(g, Step(g, a), child);
    case CallerPush => QuietKeepsWinner(g, Step(g, a), g.caller.child);
  }

  lemma FetchKeepsWinner<T(!new)>(g: Group<T>, t: T, child: T)
    requires WinnerOk(g) && Enabled(g, Fetch(t, child))
    ensures WinnerOk(Step(g, Fetch(t, child)))
  {
    hide WinnerOk;
    QuietKeepsWinner(g, Count(g, child, FromTask(t)), child);
    QuietKeepsWinner(Count(g, child, FromTask(t)), Step(g, Fetch(t, child)), t);
  }

  lemma PushKeepsWinner<T(!new)>(g: Group<T>, t: T)
    requires Inv(g) && Enabled(g, Push(t))
    ensures WinnerOk(Step(g, Push(t)))
  {
    PushedChild(g, Push(t));
    assert WinnerOk(g);
    hide Inv, AddersOk, WinnerOk, ErrorsOk, ZeroOk, Live;
    QuietKeepsWinner(g, Move(g, g.tasks[t].child, Queued), g.tasks[t].child);
    QuietKeepsWinner(Move(g, g.tasks[t].child, Queued), Step(g, Push(t)), t);
  }

  lemma StepKeepsWinner<T(!new)>(g: Group<T>, a: Action<T>)
    requires Inv(g) && Enabled(g, a)
    ensures WinnerOk(Step(g, a))
  {
    hide AddersOk, ZeroOk, ErrorsOk, Live;
    if IsLocal(a) {
      LocalShape(g, a);
      QuietKeepsWinner(g, Step(g, a), a.task);
    } else if a.Wrapper? {
      WrapperKeepsWinner(g, a.task);
    } else if a.CallerFetch? || a.CallerPush? {
      CallerKeepsWinner(g, a);
    } else if a.Fetch? {
      FetchKeepsWinner(g, a.task, a.child);
    } else if a.Push? {
      PushKeepsWinner(g, a.task);
    }
  }

  /** While something is pending, nothing has been claimed. */
  lemma BusyIsZeroOk<T(!new)>(g: Group<T>, t: T)
    requires t in g.tasks && IsCounted(g.tasks[t]) && !g.state.DoneOk?
    requires forall u | u in g.tasks :: !IsZeroer(g.tasks[u])
    ensures ZeroOk(g)
  {
    LiveZero(g.tasks);
  }

  lemma NothingLiveCallerDone<T(!new)>(g: Group<T>)
    requires AddersOk(g) && g.tasks != map[] && Live(g.tasks) == 0
    ensures g.caller.Finished?
  {
    LiveZero(g.tasks);
  }

  lemma PendingWrapperKeepsZero<T(!new)>(g: Group<T>, t: T)
    requires Inv(g) && Enabled(g, Wrapper(t)) && Live(g.tasks) <= MAX_INT16
    requires IsCounted(g.tasks[t])
    ensures ZeroOk(WrapperStep(g, t))
  {
    hide AddersOk, WinnerOk;
    var g' := WrapperStep(g, t);
    LiveMove(g.tasks, t, g'.tasks[t]);
    PendingNotDone(g, t);
    match g.tasks[t]
    case Starting => BusyIsZeroOk(g', t);
    case LateDecrement =>
    case SkipDecrement =>
    case Caught => BusyIsZeroOk(g', t);
    case CaughtDecrement(exchanged) =>
    case Returned =>
  }

  lemma FinalWrapperKeepsZero<T(!new)>(g: Group<T>, t: T)
    requires Inv(g) && Enabled(g, Wrapper(t)) && !IsCounted(g.tasks[t])
    ensures ZeroOk(WrapperStep(g, t))
  {
    hide CountedKeys;
    LiveMove(g.tasks, t, WrapperStep(g, t).tasks[t]);
    if Live(g.tasks) == 0 { NothingLiveCallerDone(g); }
    match g.tasks[t]
    case Reporting(exchanged) =>
    case Zeroing =>
    case Claiming =>
    case Announcing =>
  }

  lemma StepKeepsZero<T(!new)>(g: Group<T>, a: Action<T>)
    requires Inv(g) && Enabled(g, a) && Live(g.tasks) <= MAX_INT16
    ensures ZeroOk(Step(g, a))
  {
    hide WinnerOk, ErrorsOk, CountedKeys;
    var g' := Step(g, a);
    if IsLocal(a) {
      LocalShape(g, a);
      PendingNotDone(g, a.task);
      BusyIsZeroOk(g', a.task);
    } else {
      PushedChild(g, a);
      match a
      case Wrapper(t) =>
        if IsCounted(g.tasks[t]) { PendingWrapperKeepsZero(g, t); } else { FinalWrapperKeepsZero(g, t); }
      case CallerLoad =>
      case CallerFetch(child) => BusyIsZeroOk(g', child);
      case CallerPush => PendingNotDone(g, g.caller.child); BusyIsZeroOk(g', g.caller.child);
      case Cancel =>
      case CancelCallback =>
      case Fetch(t, child) => PendingNotDone(g, t); BusyIsZeroOk(g', t);
      case Push(t) => PendingNotDone(g, t); BusyIsZeroOk(g', t);
    }
  }

  lemma WrapperCounts<T>(g: Group<T>, t: T)
    requires Enabled(g, Wrapper(t))
    ensures var g' := WrapperStep(g, t);
      && t in g'.tasks && (IsCounted(g'.tasks[t]) ==> IsCounted(g.tasks[t]))
      && g'.pending == if IsCounted(g.tasks[t]) && !IsCounted(g'.tasks[t]) then Wrap16(g.pending - 1) else g.pending
  {
    match g.tasks[t]
    case Starting =>
    case LateDecrement =>
    case SkipDecrement =>
    case Caught =>
    case CaughtDecrement(exchanged) =>
    case Reporting(exchanged) =>
    case Returned =>
    case Zeroing =>
    case Claiming =>
    case Announcing =>
  }

  lemma Wraps(x: int)
    ensures Wrap16(Wrap16(x) + 1) == Wrap16(x + 1)
    ensures Wrap16(Wrap16(x) - 1) == Wrap16(x - 1)
  {
  }

  lemma CallerKeepsCount<T(!new)>(g: Group<T>, a: Action<T>)
    requires Inv(g) && Enabled(g, a) && (a.CallerFetch? || a.CallerPush?)
    ensures Step(g, a).pending == Wrap16(Live(Step(g, a).tasks))
  {
    Wraps(Live(g.tasks));
    hide Live, Wrap16;
    match a
    case CallerFetch(child) => LiveMove(g.tasks, child, Enqueuing(FromCaller));
    case CallerPush => LiveMove(g.tasks, g.caller.child, Queued);
  }

  lemma FetchKeepsCount<T(!new)>(g: Group<T>, t: T, child: T)
    requires g.pending == Wrap16(Live(g.tasks)) && Enabled(g, Fetch(t, child))
    ensures Step(g, Fetch(t, child)).pending == Wrap16(Live(Step(g, Fetch(t, child)).tasks))
  {
    Wraps(Live(g.tasks));
    LiveMove(g.tasks, child, Enqueuing(FromTask(t)));
    LiveMove(g.tasks[child := Enqueuing(FromTask(t))], t, Pushing(child));
    hide Live, Wrap16;
  }

  lemma PushKeepsCount<T(!new)>(g: Group<T>, t: T)
    requires Inv(g) && Enabled(g, Push(t))
    ensures Step(g, Push(t)).pending == Wrap16(Live(Step(g, Push(t)).tasks))
  {
    PushedChild(g, Push(t));
    LiveMove(g.tasks, g.tasks[t].child, Queued);
    LiveMove(g.tasks[g.tasks[t].child := Queued], t, Body);
    hide Live, Wrap16;
  }

  /** The 16-bit counter is the number of pending tasks, up to its wrap-around. */
  lemma StepKeepsCount<T(!new)>(g: Group<T>, a: Action<T>)
    requires Inv(g) && Enabled(g, a)
    ensures Step(g, a).pending == Wrap16(Live(Step(g, a).tasks))
  {
    Wraps(Live(g.tasks));
    hide AddersOk, WinnerOk, ZeroOk, ErrorsOk, Live, Wrap16;
    var g' := Step(g, a);
    if IsLocal(a) {
      LocalShape(g, a);
      LiveMove(g.tasks, a.task, g'.tasks[a.task]);
    } else if a.Wrapper? {
      WrapperShape(g, a.task);
      WrapperCounts(g, a.task);
      LiveMove(g.tasks, a.task, g'.tasks[a.task]);
    } else if a.CallerFetch? || a.CallerPush? {
      CallerKeepsCount(g, a);
    } else if a.Fetch? {
      FetchKeepsCount(g, a.task, a.child);
    } else if a.Push? {
      PushKeepsCount(g, a.task);
    }
  }

  lemma StepKeepsInv<T(!new)>(g: Group<T>, a: Action<T>)
    requires Inv(g) && Enabled(g, a) && Live(g.tasks) <= MAX_INT16
    ensures Inv(Step(g, a))
  {
    StepKeepsCount(g, a);
    StepKeepsAdders(g, a);
    StepKeepsErrors(g, a);
    StepKeepsZero(g, a);
    StepKeepsWinner(g, a);
  }
}
