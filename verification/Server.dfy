/** All uploads together: src/image_processing.hpp's `check_existence` and `finalize`, the
    shared `currently_processing` map, the notifiers and the data directory.

    A step is one atomic operation of one upload: a step of its task group or of a task body
    (module Fanout), a step of the existence check, or a step of `finalize`. */
module Server {
  import opened TaskGroups
  import opened Fanout

  type Hash = string

  datatype Upload = Upload(hash: Hash, job: Job)

  /** Where `finalize` stands. `AtGuard` is its state before it is called. */
  datatype Finalizing = AtGuard | AtCommit | AtErase | AtNotify | AtHook | Finalized

  /** An `image_processor`. A notifier is named by the upload whose `emplace` created it;
      `answer` is the folder that `find_existing_data` filled the reply from; `replied` is
      the outcome passed to the ready hook. */
  datatype Proc = Proc(
    run: Run,
    notifier: Option<nat>,
    answer: Option<Tree>,
    fin: Finalizing,
    replied: Option<bool>)

  /** `registry` is `currently_processing`, `raised` the notifiers that still hold true.
      `author` is history: whose commit created a folder. `crashed` records that a null
      staged folder was dereferenced or that `rename` met an existing folder. */
  datatype State = State(
    procs: seq<Proc>,
    registry: map<Hash, nat>,
    raised: set<nat>,
    data: map<Hash, Tree>,
    author: map<Hash, nat>,
    crashed: bool)

  /** The guard of `finalize`: as the source has it, `processing_done_notifier` is set; or
      the intended one, this upload's own `emplace` succeeded, and it commits what it staged. */
  datatype Rule = AsWritten | OwnerOnly

  datatype Event =
    | Work(p: nat, act: Act)  // a step of p's group or task bodies
    | CheckStep(p: nat)       // the next step of p's check_existence
    | CheckFails(p: nat)      // an exception while p looks into the data directory
    | FinStep(p: nat)         // the next step of p's finalize

  function InitProc(job: Job): Proc {
    Proc(InitRun(job), None, None, AtGuard, None)
  }

  function InitState(uploads: seq<Upload>): State {
    State(seq(|uploads|, i requires 0 <= i < |uploads| => InitProc(uploads[i].job)), map[], {}, map[], map[], false)
  }

  /** The group has ended without an error. */
  predicate Succeeded(x: Proc) {
    x.run.group.callbacks == [OnFinish]
  }

  predicate InCheck(x: Proc) {
    At(x.run.group, Check, Body) && Check in x.run.stages && x.run.stages[Check].Checking?
  }

  predicate Looks(x: Proc) {
    InCheck(x) && (x.run.stages[Check].pc.FirstLook? || x.run.stages[Check].pc.LookAfterWait? || x.run.stages[Check].pc.LookAgain?)
  }

  /** The wait ends when the notifier no longer holds true. */
  predicate MayCheck(s: State, x: Proc) {
    InCheck(x) && (x.run.stages[Check].pc.Waiting? ==> x.notifier.Some? && x.notifier.value !in s.raised)
  }

  /** Nobody calls `image_processor::cancel`, and the check's own exceptions are `CheckFails`. */
  predicate IsWork(act: Act) {
    && !act.Decide? && act != Fail(Check)
    && (act.Inner? ==> !act.a.Cancel? && !act.a.CancelCallback?)
  }

  predicate EventEnabled(uploads: seq<Upload>, s: State, e: Event) {
    && !s.crashed && |s.procs| == |uploads| && e.p < |uploads|
    && var x := s.procs[e.p];
    match e
    case Work(p, act) => IsWork(act) && ActEnabled(uploads[p].job, x.run, act)
    case CheckStep(p) => MayCheck(s, x)
    case CheckFails(p) => Looks(x)
    case FinStep(p) => !x.fin.Finalized? && (x.fin.AtGuard? ==> x.run.group.callbacks != [])
  }

  function Put(s: State, p: nat, x: Proc): State
    requires p < |s.procs|
  {
    s.(procs := s.procs[p := x])
  }

  function Go(job: Job, x: Proc, pc: CheckPc): Proc
    requires InCheck(x)
  {
    x.(run := Perform(job, x.run, Decide(Checking(pc))))
  }

  /** `find_existing_data` found `tree`: the check returns. */
  function Found(job: Job, x: Proc, tree: Tree): Proc
    requires InCheck(x)
  {
    x.(run := Perform(job, x.run, Decide(Ended)), answer := Some(tree))
  }

  function CheckNext(uploads: seq<Upload>, s: State, p: nat): State
    requires EventEnabled(uploads, s, CheckStep(p))
  {
    var x, h, job := s.procs[p], uploads[p].hash, uploads[p].job;
    match x.run.stages[Check].pc
    case FirstLook => Put(s, p, if h in s.data then Found(job, x, s.data[h]) else Go(job, x, Emplacing))
    case Emplacing =>
      if h in s.registry
      then Put(s, p, Go(job, x, Waiting).(notifier := Some(s.registry[h])))
      else Put(s, p, Go(job, x, LookAgain).(notifier := Some(p))).(registry := s.registry[h := p], raised := s.raised + {p})
    case Waiting => Put(s, p, Go(job, x, LookAfterWait))
    case LookAfterWait =>
      Put(s, p, if h in s.data then Found(job, x, s.data[h]) else x.(run := Perform(job, x.run, Fail(Check))))
    case LookAgain =>
      Put(s, p, if h in s.data then Found(job, x, s.data[h]) else x.(run := Perform(job, x.run, Decide(CheckAdds))))
  }

  /** Whether `finalize` enters its guarded block. */
  predicate Enters(rule: Rule, x: Proc, p: nat) {
    match rule
    case AsWritten => x.notifier.Some?
    case OwnerOnly => x.notifier == Some(p)
  }

  /** Whether it then commits the staged folder. */
  predicate Commits(rule: Rule, x: Proc) {
    Succeeded(x) && (rule.OwnerOnly? ==> x.run.staged)
  }

  function FinNext(rule: Rule, uploads: seq<Upload>, s: State, p: nat): State
    requires EventEnabled(uploads, s, FinStep(p))
  {
    var x, h := s.procs[p], uploads[p].hash;
    match x.fin
    case AtGuard =>
      Put(s, p, x.(fin := if !Enters(rule, x, p) then AtHook else if Commits(rule, x) then AtCommit else AtErase))
    case AtCommit =>
      if !x.run.staged || h in s.data then s.(crashed := true)
      else Put(s, p, x.(fin := AtErase)).(data := s.data[h := x.run.tree], author := s.author[h := p])
    case AtErase => Put(s, p, x.(fin := AtNotify)).(registry := s.registry - {h})
    case AtNotify =>
      Put(s, p, x.(fin := AtHook)).(raised := if x.notifier.Some? then s.raised - {x.notifier.value} else s.raised)
    case AtHook => Put(s, p, x.(fin := Finalized, replied := Some(Succeeded(x))))
  }

  function Next(rule: Rule, uploads: seq<Upload>, s: State, e: Event): State
    requires EventEnabled(uploads, s, e)
  {
    match e
    case Work(p, act) => Put(s, p, s.procs[p].(run := Perform(uploads[p].job, s.procs[p].run, act)))
    case CheckStep(p) => CheckNext(uploads, s, p)
    case CheckFails(p) => Put(s, p, s.procs[p].(run := Perform(uploads[p].job, s.procs[p].run, Fail(Check))))
    case FinStep(p) => FinNext(rule, uploads, s, p)
  }

  predicate LegalEvents(rule: Rule, uploads: seq<Upload>, s: State, events: seq<Event>)
    decreases |events|, 0
  {
    events == []
    || (LegalEvents(rule, uploads, s, events[..|events| - 1])
        && EventEnabled(uploads, StateAfter(rule, uploads, s, events[..|events| - 1]), events[|events| - 1]))
  }

  function StateAfter(rule: Rule, uploads: seq<Upload>, s: State, events: seq<Event>): State
    requires LegalEvents(rule, uploads, s, events)
    decreases |events|, 1
  {
    if events == [] then s
    else Next(rule, uploads, StateAfter(rule, uploads, s, events[..|events| - 1]), events[|events| - 1])
  }
}
