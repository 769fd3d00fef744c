/** The task group of src/thread_pool.hpp as a state machine over its atomic steps.

    Every load, compare-exchange, fetch_add, fetch_sub, push, pop and callback of
    `task_group` is one step of its own, so a run is any interleaving of the adding
    threads, the workers and `cancel`. Tasks are named by keys of any type `T`. */
module TaskGroups {

  datatype GroupState = Running | DoneOk | DoneError

  datatype Callback = OnError | OnFinish

  /** The five `logic_error` sites of the group. */
  datatype Site = AddAfterDone | StartAfterDone | ErrorAfterDone | ZeroAfterDone | NegativePending

  datatype Outcome = Ok | Errored | Skipped | Threw

  /** Who is inside `add_task`: the thread that started the group, or a task of it. */
  datatype Adder<T> = FromCaller | FromTask(task: T)

  /** Where a task stands, from the `fetch_add` that counts it to the end of its wrapper. */
  datatype Pc<T> =
    | Enqueuing(adder: Adder<T>)        // counted, not yet in the pool's queue
    | Queued
    | Starting                          // popped by a worker, state not loaded yet
    | LateDecrement                     // loaded DoneOk
    | SkipDecrement                     // loaded DoneError
    | Body                              // inside the task's closure
    | Adding                            // in add_task: loaded Running, not counted yet
    | Pushing(child: T)                 // in add_task: child counted, not pushed yet
    | Caught                            // the closure threw, exchange to DoneError next
    | CaughtDecrement(exchanged: bool)
    | Reporting(exchanged: bool)        // decremented, callback or check next
    | Returned                          // the closure returned, decrement next
    | Zeroing                           // fetch_sub returned 1, load next
    | Claiming                          // exchange to DoneOk next
    | Announcing                        // exchange succeeded, on_finish next
    | Done(outcome: Outcome)

  /** The first `add_task`, made by the thread that created the group. */
  datatype Caller<T> = NotCalled | Loaded | Counted(child: T) | Finished

  datatype Winner<T> = Nobody | Canceller | Won(task: T)

  /** `winner`, `callbacks` and `thrown` are history: who made the exchange that ended
      `Running`, the callbacks invoked so far, and the logic errors raised so far. */
  datatype Group<T> = Group(
    state: GroupState,
    pending: int,
    tasks: map<T, Pc<T>>,
    caller: Caller<T>,
    cancelling: bool,
    winner: Winner<T>,
    callbacks: seq<Callback>,
    thrown: set<Site>)

  datatype Action<T> =
    | CallerLoad | CallerFetch(child: T) | CallerPush
    | Cancel | CancelCallback
    | Pop(task: T)
    | AddTask(task: T)                  // the state load of an add_task made by a body
    | Fetch(task: T, child: T)          // its fetch_add
    | Push(task: T)                     // its hand-over to the pool
    | Return(task: T) | Throw(task: T)  // the closure ends
    | Wrapper(task: T)                  // the next step of the wrapper lambda

  const MAX_INT16 := 32767

  /** The value an `int16_t` keeps of `x`. */
  function Wrap16(x: int): int {
    (x + 32768) % 65536 - 32768
  }

  /** The tasks `pending_tasks` is meant to count. */
  predicate IsCounted<T>(pc: Pc<T>) {
    !pc.Reporting? && !pc.Zeroing? && !pc.Claiming? && !pc.Announcing? && !pc.Done?
  }

  function CountedKeys<T>(tasks: map<T, Pc<T>>): set<T> {
    set t | t in tasks && IsCounted(tasks[t])
  }

  function Live<T>(tasks: map<T, Pc<T>>): nat {
    |CountedKeys(tasks)|
  }

  function Init<T>(): Group<T> {
    Group(Running, 0, map[], NotCalled, false, Nobody, [], {})
  }

  // ---------------------------------------------------------------- steps

  predicate At<T>(g: Group<T>, t: T, pc: Pc<T>) {
    t in g.tasks && g.tasks[t] == pc
  }

  predicate WrapperOwns<T>(pc: Pc<T>) {
    pc.Starting? || pc.LateDecrement? || pc.SkipDecrement? || pc.Caught? || pc.CaughtDecrement?
    || pc.Reporting? || pc.Returned? || pc.Zeroing? || pc.Claiming? || pc.Announcing?
  }

  predicate Enabled<T>(g: Group<T>, a: Action<T>) {
    match a
    case CallerLoad => g.caller.NotCalled?
    case CallerFetch(child) => g.caller.Loaded? && child !in g.tasks
    case CallerPush => g.caller.Counted?
    case Cancel => true
    case CancelCallback => g.cancelling
    case Pop(t) => At(g, t, Queued)
    case AddTask(t) => At(g, t, Body)
    case Fetch(t, child) => At(g, t, Adding) && child !in g.tasks
    case Push(t) => t in g.tasks && g.tasks[t].Pushing?
    case Return(t) => At(g, t, Body)
    case Throw(t) => At(g, t, Body)
    case Wrapper(t) => t in g.tasks && WrapperOwns(g.tasks[t])
  }

  function Move<T>(g: Group<T>, t: T, pc: Pc<T>): Group<T> {
    g.(tasks := g.tasks[t := pc])
  }

  /** `pending_tasks.fetch_sub(1)` followed by the move of `t` to `pc`. */
  function Decrement<T>(g: Group<T>, t: T, pc: Pc<T>): Group<T> {
    Move(g, t, pc).(pending := Wrap16(g.pending - 1))
  }

  function Raise<T>(g: Group<T>, site: Site): Group<T> {
    g.(thrown := g.thrown + {site})
  }

  /** A successful `compare_exchange_strong` on `state`. */
  function Exchange<T>(g: Group<T>, state: GroupState, winner: Winner<T>): Group<T> {
    g.(state := state, winner := winner)
  }

  function Call<T>(g: Group<T>, callback: Callback): Group<T> {
    g.(callbacks := g.callbacks + [callback])
  }

  function Count<T>(g: Group<T>, child: T, adder: Adder<T>): Group<T> {
    Move(g, child, Enqueuing(adder)).(pending := Wrap16(g.pending + 1))
  }

  function Step<T>(g: Group<T>, a: Action<T>): Group<T>
    requires Enabled(g, a)
  {
    match a
    case CallerLoad =>
      (match g.state
       case Running => g.(caller := Loaded)
       case DoneOk => Raise(g, AddAfterDone).(caller := Finished)
       case DoneError => g.(caller := Finished))
    case CallerFetch(child) => Count(g, child, FromCaller).(caller := Counted(child))
    case CallerPush => Move(g, g.caller.child, Queued).(caller := Finished)
    case Cancel =>
      if g.state.Running? then Exchange(g, DoneError, Canceller).(cancelling := true) else g
    case CancelCallback => Call(g, OnError).(cancelling := false)
    case Pop(t) => Move(g, t, Starting)
    case AddTask(t) =>
      (match g.state
       case Running => Move(g, t, Adding)
       case DoneOk => Move(Raise(g, AddAfterDone), t, Caught)  // thrown inside the closure
       case DoneError => g)
    case Fetch(t, child) => Move(Count(g, child, FromTask(t)), t, Pushing(child))
    case Push(t) => Move(Move(g, g.tasks[t].child, Queued), t, Body)
    case Return(t) => Move(g, t, Returned)
    case Throw(t) => Move(g, t, Caught)
    case Wrapper(t) => WrapperStep(g, t)
  }

  function WrapperStep<T>(g: Group<T>, t: T): Group<T>
    requires t in g.tasks && WrapperOwns(g.tasks[t])
  {
    match g.tasks[t]
    case Starting =>
      (match g.state
       case Running => Move(g, t, Body)
       case DoneOk => Move(g, t, LateDecrement)
       case DoneError => Move(g, t, SkipDecrement))
    case LateDecrement => Raise(Decrement(g, t, Done(Threw)), StartAfterDone)
    case SkipDecrement => Decrement(g, t, Done(Skipped))
    case Caught =>
      if g.state.Running?
      then Exchange(Move(g, t, CaughtDecrement(true)), DoneError, Won(t))
      else Move(g, t, CaughtDecrement(false))
    case CaughtDecrement(exchanged) => Decrement(g, t, Reporting(exchanged))
    case Reporting(exchanged) =>
      if exchanged then Call(Move(g, t, Done(Errored)), OnError)
      else if g.state.DoneOk? then Raise(Move(g, t, Done(Threw)), ErrorAfterDone)
      else Move(g, t, Done(Errored))
    case Returned =>
      if g.pending == 1 then Decrement(g, t, Zeroing)
      else if g.pending < 1 then Raise(Decrement(g, t, Done(Threw)), NegativePending)
      else Decrement(g, t, Done(Ok))
    case Zeroing =>
      if g.state.DoneOk? then Raise(Move(g, t, Done(Threw)), ZeroAfterDone)
      else Move(g, t, Claiming)
    case Claiming =>
      if g.state.Running?
      then Exchange(Move(g, t, Announcing), DoneOk, Won(t))
      else Move(g, t, Done(Ok))
    case Announcing => Call(Move(g, t, Done(Ok)), OnFinish)
  }

  // ---------------------------------------------------------------- runs

  predicate Legal<T>(g: Group<T>, run: seq<Action<T>>)
    decreases |run|, 0
  {
    run == [] || (Legal(g, run[..|run| - 1]) && Enabled(Final(g, run[..|run| - 1]), run[|run| - 1]))
  }

  function Final<T>(g: Group<T>, run: seq<Action<T>>): Group<T>
    requires Legal(g, run)
    decreases |run|, 1
  {
    if run == [] then g else Step(Final(g, run[..|run| - 1]), run[|run| - 1])
  }

  /** No state of the run, its last one included, has more than `k` pending tasks. */
  predicate Bounded<T>(g: Group<T>, run: seq<Action<T>>, k: nat)
    requires Legal(g, run)
  {
    Live(Final(g, run).tasks) <= k && (run != [] ==> Bounded(g, run[..|run| - 1], k))
  }
}
