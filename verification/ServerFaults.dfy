/** When an upload fails: exactly if one of its own operations threw, or it waited for an upload that
    failed; and an upload of an image that is stored already is answered with it. */
module ServerFaults {
  import opened TaskGroups
  import TaskGroupInvariant
  import opened Fanout
  import FanoutInvariant
  import FanoutCapacity
  import opened FanoutTheorems
  import opened FanoutSuccess
  import opened Server
  import SchedulerProgress
  import SchedulerTermination
  import opened ServerInvariant
  import opened ServerTheorems

  // ---------------------------------------------------------------- causes

  /** An exception: while the upload looks into the data directory, or in the body of a task. */
  predicate IsFault(e: Event, p: nat) {
    e == CheckFails(p) || (e.Work? && e.p == p && e.act.Fail?)
  }

  /** The upload has waited for another and finds nothing stored. */
  predicate WaitsInVain(uploads: seq<Upload>, s: State, e: Event, p: nat) {
    && e == CheckStep(p) && p < |uploads| == |s.procs|
    && CheckOf(s.procs[p]) == Some(LookAfterWait) && uploads[p].hash !in s.data
  }

  /** The `k`-th event of the run is what makes upload `p` fail. */
  ghost predicate Blames(uploads: seq<Upload>, events: seq<Event>, k: nat, p: nat) {
    && k < |events| && LegalEvents(OwnerOnly, uploads, InitState(uploads), events[..k])
    && (IsFault(events[k], p)
        || WaitsInVain(uploads, StateAfter(OwnerOnly, uploads, InitState(uploads), events[..k]), events[k], p))
  }

  ghost predicate Blamed(uploads: seq<Upload>, events: seq<Event>, p: nat) {
    exists k :: Blames(uploads, events, k, p)
  }

  lemma BlamesInPrefix(uploads: seq<Upload>, events: seq<Event>, n: nat, k: nat, p: nat)
    requires k < n <= |events|
    ensures Blames(uploads, events[..n], k, p) <==> Blames(uploads, events, k, p)
  {
    hide LegalEvents, StateAfter, IsFault, WaitsInVain;
    assert events[..n][..k] == events[..k];
  }

  lemma BlamedBefore(uploads: seq<Upload>, events: seq<Event>, p: nat)
    requires events != []
    ensures var n: nat := |events| - 1;
      Blamed(uploads, events, p) <==> Blamed(uploads, events[..n], p) || Blames(uploads, events, n, p)
  {
    var n: nat := |events| - 1;
    forall k: nat | k < n ensures Blames(uploads, events[..n], k, p) <==> Blames(uploads, events, k, p) {
      BlamesInPrefix(uploads, events, n, k, p);
    }
    assert forall k: nat | Blames(uploads, events, k, p) :: k <= n;
    assert forall k: nat | Blames(uploads, events[..n], k, p) :: k < n;
    hide Blames;
  }

  // ---------------------------------------------------------------- one event

  lemma LooksAlone(uploads: seq<Upload>, s: State, p: nat)
    requires EventEnabled(uploads, s, CheckStep(p))
    ensures var s' := CheckNext(uploads, s, p);
      && |s'.procs| == |s.procs| && (forall q: nat | q < |s.procs| && q != p :: s'.procs[q] == s.procs[q])
      && (s'.procs[p].run.group == s.procs[p].run.group || WaitsInVain(uploads, s, CheckStep(p), p))
  {
    hide Step;
    match s.procs[p].run.stages[Check].pc
    case FirstLook =>
    case Emplacing =>
    case Waiting =>
    case LookAfterWait =>
    case LookAgain =>
  }

  lemma FinishesAlone(uploads: seq<Upload>, s: State, p: nat)
    requires EventEnabled(uploads, s, FinStep(p))
    ensures var s' := FinNext(OwnerOnly, uploads, s, p);
      && |s'.procs| == |s.procs| && (forall q: nat | q < |s.procs| && q != p :: s'.procs[q] == s.procs[q])
      && s'.procs[p].run == s.procs[p].run && s'.procs[p].answer == s.procs[p].answer
      && s'.procs[p].notifier == s.procs[p].notifier
  {
  }

  lemma OthersStay(uploads: seq<Upload>, s: State, e: Event, p: nat)
    requires EventEnabled(uploads, s, e) && p < |s.procs| && e.p != p
    ensures var s' := Next(OwnerOnly, uploads, s, e); |s'.procs| == |s.procs| && s'.procs[p] == s.procs[p]
  {
    hide Perform, CheckNext, FinNext;
    match e
    case Work(q, act) =>
    case CheckStep(q) => LooksAlone(uploads, s, q);
    case CheckFails(q) =>
    case FinStep(q) => FinishesAlone(uploads, s, q);
  }

  lemma SafeRun(uploads: seq<Upload>, s: State, p: nat)
    requires Safe(uploads, s) && p < |uploads|
    ensures |s.procs| == |uploads| && GroupOk(uploads[p].job, s.procs[p]) && RunOk(uploads[p].job, s.procs[p].run)
    ensures PhaseOk(s.procs[p], p) && StoreOk(uploads[p].hash, s, p) && NotifierOk(uploads, s, p)
  {
    assert ProcOk(uploads, s, p);
    hide RunOk, PhaseOk, StoreOk, NotifierOk, RegistryOk, RaisedOk, DataOk;
  }

  /** Nothing but a fault or a wait in vain makes an upload fail. */
  lemma EventKeepsSound(uploads: seq<Upload>, s: State, e: Event, p: nat)
    requires Safe(uploads, s) && EventEnabled(uploads, s, e) && p < |uploads| && Sound(s.procs[p].run.group)
    requires !IsFault(e, p) && !WaitsInVain(uploads, s, e, p)
    ensures p < |Next(OwnerOnly, uploads, s, e).procs| && Sound(Next(OwnerOnly, uploads, s, e).procs[p].run.group)
  {
    hide Safe, RunOk, Sound, Perform, CheckNext, FinNext, WaitsInVain, PhaseOk, StoreOk, NotifierOk, GroupOk, ActEnabled;
    SafeRun(uploads, s, p);
    if e.p != p {
      OthersStay(uploads, s, e, p);
    } else {
      match e
      case Work(q, act) => WorkStaysSound(uploads[p].job, s.procs[p].run, act);
      case CheckStep(q) => LooksAlone(uploads, s, p);
      case FinStep(q) => FinishesAlone(uploads, s, p);
    }
  }

  /** An exception that is on its way, or has ended the group. */
  ghost predicate Doomed(g: Group<Fanout.Work>) {
    g.state.DoneError? || exists w :: w in g.tasks && g.tasks[w].Caught?
  }

  lemma StepStaysDoomed(g: Group<Fanout.Work>, a: Action<Fanout.Work>)
    requires TaskGroupInvariant.Inv(g) && Doomed(g) && Enabled(g, a)
    ensures Doomed(Step(g, a))
  {
    if g.state.DoneError? {
      if a.Wrapper? { TaskGroupInvariant.WrapperShape(g, a.task); }
    } else {
      var w :| w in g.tasks && g.tasks[w].Caught?;
      TaskGroupInvariant.PendingNotDone(g, w);
      if a == Wrapper(w) {
      } else {
        CaughtStays(g, a, w);
      }
    }
    hide TaskGroupInvariant.Inv;
  }

  lemma CaughtStays(g: Group<Fanout.Work>, a: Action<Fanout.Work>, w: Fanout.Work)
    requires TaskGroupInvariant.AddersOk(g) && Enabled(g, a) && At(g, w, Caught) && a != Wrapper(w)
    ensures At(Step(g, a), w, Caught)
  {
    if a.Wrapper? { TaskGroupInvariant.WrapperShape(g, a.task); hide WrapperStep; }
  }

  lemma ActStaysDoomed(job: Job, r: Run, act: Act)
    requires RunOk(job, r) && Doomed(r.group) && ActEnabled(job, r, act)
    ensures Doomed(Perform(job, r, act).group)
  {
    FanoutInvariant.ActIsGroupStep(job, r, act);
    assert TaskGroupInvariant.Inv(r.group);
    hide RunOk, Doomed, Perform, ActEnabled, Step, Enabled, TaskGroupInvariant.Inv;
    var g' := Perform(job, r, act).group;
    if g' != r.group {
      var a :| Enabled(r.group, a) && g' == Step(r.group, a);
      StepStaysDoomed(r.group, a);
    }
  }

  lemma FailDooms(job: Job, r: Run, w: Fanout.Work)
    requires ActEnabled(job, r, Fail(w))
    ensures Doomed(Perform(job, r, Fail(w)).group)
  {
    assert Perform(job, r, Fail(w)).group.tasks[w].Caught?;
  }

  lemma BlameDooms(uploads: seq<Upload>, s: State, e: Event, p: nat)
    requires EventEnabled(uploads, s, e) && p < |uploads| && (IsFault(e, p) || WaitsInVain(uploads, s, e, p))
    ensures e.p == p < |s.procs| == |Next(OwnerOnly, uploads, s, e).procs|
    ensures Doomed(Next(OwnerOnly, uploads, s, e).procs[p].run.group)
  {
    hide Doomed, Perform, ActEnabled;
    match e
    case Work(q, act) => FailDooms(uploads[p].job, s.procs[p].run, act.task);
    case CheckStep(q) => LookFails(s.procs[p]); FailDooms(uploads[p].job, s.procs[p].run, Check);
    case CheckFails(q) => LookFails(s.procs[p]); FailDooms(uploads[p].job, s.procs[p].run, Check);
  }

  lemma LookFails(x: Proc)
    ensures InCheck(x) ==> forall job :: ActEnabled(job, x.run, Fail(Check))
  {
  }

  lemma EventStaysDoomed(uploads: seq<Upload>, s: State, e: Event, p: nat)
    requires Safe(uploads, s) && EventEnabled(uploads, s, e) && p < |uploads| && Doomed(s.procs[p].run.group)
    ensures p < |Next(OwnerOnly, uploads, s, e).procs| && Doomed(Next(OwnerOnly, uploads, s, e).procs[p].run.group)
  {
    hide Safe, RunOk, Doomed, Perform, CheckNext, FinNext, WaitsInVain, PhaseOk, StoreOk, NotifierOk, GroupOk, ActEnabled;
    SafeRun(uploads, s, p);
    if e.p != p {
      OthersStay(uploads, s, e, p);
    } else {
      match e
      case Work(q, act) => ActStaysDoomed(uploads[p].job, s.procs[p].run, act);
      case CheckStep(q) => if WaitsInVain(uploads, s, e, p) { BlameDooms(uploads, s, e, p); } LooksAlone(uploads, s, p);
      case CheckFails(q) => BlameDooms(uploads, s, e, p);
      case FinStep(q) => FinishesAlone(uploads, s, p);
    }
  }

  // ---------------------------------------------------------------- whole runs

  lemma LegalBefore(uploads: seq<Upload>, events: seq<Event>) returns (s: State)
    requires AllFit(uploads) && events != [] && LegalEvents(OwnerOnly, uploads, InitState(uploads), events)
    ensures LegalEvents(OwnerOnly, uploads, InitState(uploads), events[..|events| - 1])
    ensures s == StateAfter(OwnerOnly, uploads, InitState(uploads), events[..|events| - 1])
    ensures Safe(uploads, s) && |s.procs| == |uploads| && EventEnabled(uploads, s, events[|events| - 1])
    ensures StateAfter(OwnerOnly, uploads, InitState(uploads), events) == Next(OwnerOnly, uploads, s, events[|events| - 1])
  {
    hide Safe, AllFit, Next, EventEnabled;
    s := StateAfter(OwnerOnly, uploads, InitState(uploads), events[..|events| - 1]);
    RunsAreSafe(uploads, events[..|events| - 1]);
    ProcsOf(uploads, s);
  }

  lemma ProcsOf(uploads: seq<Upload>, s: State)
    requires Safe(uploads, s)
    ensures |s.procs| == |uploads|
  {
  }

  /** In every run an upload is sound as long as nothing is to blame for its failure, and from then on
      it is doomed. */
  lemma {:induction false} BlameDecides(uploads: seq<Upload>, events: seq<Event>, p: nat)
    requires AllFit(uploads) && LegalEvents(OwnerOnly, uploads, InitState(uploads), events) && p < |uploads|
    ensures var s := StateAfter(OwnerOnly, uploads, InitState(uploads), events);
      p < |s.procs| && if Blamed(uploads, events, p) then Doomed(s.procs[p].run.group) else Sound(s.procs[p].run.group)
  {
    hide AllFit, Safe, Next, EventEnabled, Doomed, Sound, Blames, IsFault, WaitsInVain;
    if events == [] {
      NobodyBlamed(uploads, p);
      assert Sound(InitState(uploads).procs[p].run.group) by { StartsSound(uploads[p].job); }
    } else {
      var before, e := events[..|events| - 1], events[|events| - 1];
      var s := LegalBefore(uploads, events);
      BlameDecides(uploads, before, p);
      BlamedBefore(uploads, events, p);
      LastBlame(uploads, events, s, p);
      if Blamed(uploads, before, p) {
        EventStaysDoomed(uploads, s, e, p);
      } else if IsFault(e, p) || WaitsInVain(uploads, s, e, p) {
        BlameDooms(uploads, s, e, p);
      } else {
        EventKeepsSound(uploads, s, e, p);
      }
    }
  }

  lemma NobodyBlamed(uploads: seq<Upload>, p: nat)
    ensures !Blamed(uploads, [], p)
  {
  }

  lemma StartsSound(job: Job)
    ensures Sound(InitProc(job).run.group)
  {
  }

  lemma LastBlame(uploads: seq<Upload>, events: seq<Event>, s: State, p: nat)
    requires events != [] && LegalEvents(OwnerOnly, uploads, InitState(uploads), events[..|events| - 1])
    requires s == StateAfter(OwnerOnly, uploads, InitState(uploads), events[..|events| - 1])
    ensures var n: nat, e := |events| - 1, events[|events| - 1];
      Blames(uploads, events, n, p) <==> IsFault(e, p) || WaitsInVain(uploads, s, e, p)
  {
    hide LegalEvents, StateAfter, IsFault, WaitsInVain;
  }

  lemma SoundEnds(job: Job, x: Proc)
    requires RunOk(job, x.run) && x.run.group.callbacks != []
    ensures Sound(x.run.group) ==> Succeeded(x)
    ensures Doomed(x.run.group) ==> !Succeeded(x)
  {
    var g := x.run.group;
    if w :| w in g.tasks && g.tasks[w].Caught? { TaskGroupInvariant.PendingNotDone(g, w); }
    assert TaskGroupInvariant.Inv(g);
  }

  /** What an upload replies: an error exactly if an exception was thrown in it, or it waited for an
      upload after which nothing was stored; success otherwise. In particular an upload that finds
      the image stored is not refused. */
  lemma ErrorIsExact(uploads: seq<Upload>, events: seq<Event>, p: nat)
    requires AllFit(uploads) && LegalEvents(OwnerOnly, uploads, InitState(uploads), events) && p < |uploads|
    ensures var s := StateAfter(OwnerOnly, uploads, InitState(uploads), events);
      p < |s.procs| && (s.procs[p].replied.Some? ==> s.procs[p].replied.value == !Blamed(uploads, events, p))
  {
    hide AllFit, Safe, Doomed, Sound, Blamed, LegalEvents, StateAfter, RunOk, StoreOk, NotifierOk, Succeeded;
    var s := StateAfter(OwnerOnly, uploads, InitState(uploads), events);
    BlameDecides(uploads, events, p);
    RunsAreSafe(uploads, events);
    SafeRun(uploads, s, p);
    if s.procs[p].replied.Some? { SoundEnds(uploads[p].job, s.procs[p]); }
  }

  // ---------------------------------------------------------------- where a failure began

  lemma EventKeepsNotifier(uploads: seq<Upload>, s: State, e: Event, p: nat)
    requires Safe(uploads, s) && EventEnabled(uploads, s, e) && p < |uploads| && s.procs[p].notifier.Some?
    ensures p < |Next(OwnerOnly, uploads, s, e).procs|
    ensures Next(OwnerOnly, uploads, s, e).procs[p].notifier == s.procs[p].notifier
  {
    hide Safe, RunOk, StoreOk, NotifierOk, GroupOk, Perform, FinNext, CheckNext;
    SafeRun(uploads, s, p);
    if e.p != p {
      OthersStay(uploads, s, e, p);
    } else {
      match e
      case Work(q, act) =>
      case CheckStep(q) => LookKeepsNotifier(uploads, s, p);
      case CheckFails(q) =>
      case FinStep(q) => FinishesAlone(uploads, s, p);
    }
  }

  lemma LookKeepsNotifier(uploads: seq<Upload>, s: State, p: nat)
    requires EventEnabled(uploads, s, CheckStep(p)) && PhaseOk(s.procs[p], p) && s.procs[p].notifier.Some?
    ensures p < |CheckNext(uploads, s, p).procs| && CheckNext(uploads, s, p).procs[p].notifier == s.procs[p].notifier
  {
    hide Perform;
  }

  lemma {:induction false} NotifierStays(uploads: seq<Upload>, events: seq<Event>, k: nat, p: nat)
    requires AllFit(uploads) && LegalEvents(OwnerOnly, uploads, InitState(uploads), events) && p < |uploads| && k <= |events|
    ensures LegalEvents(OwnerOnly, uploads, InitState(uploads), events[..k])
    ensures var s, s' := StateAfter(OwnerOnly, uploads, InitState(uploads), events[..k]),
                         StateAfter(OwnerOnly, uploads, InitState(uploads), events);
      p < |s.procs| == |s'.procs| && (s.procs[p].notifier.Some? ==> s'.procs[p].notifier == s.procs[p].notifier)
  {
    hide AllFit, Safe, Next, EventEnabled;
    RunsAreSafe(uploads, events);
    ProcsOf(uploads, StateAfter(OwnerOnly, uploads, InitState(uploads), events));
    if k == |events| {
      assert events[..k] == events;
    } else {
      var before := events[..|events| - 1];
      var s1 := LegalBefore(uploads, events);
      assert before[..k] == events[..k];
      NotifierStays(uploads, before, k, p);
      if s1.procs[p].notifier.Some? { EventKeepsNotifier(uploads, s1, events[|events| - 1], p); }
    }
  }

  /** A wait is in vain only because of the upload waited for: its group has ended in an error. */
  lemma WaitedForFailure(uploads: seq<Upload>, s: State, e: Event, p: nat) returns (q: nat)
    requires AllFit(uploads) && Reachable(uploads, s) && WaitsInVain(uploads, s, e, p)
    ensures q < |uploads| && uploads[q].hash == uploads[p].hash && s.procs[q].notifier == Some(q)
    ensures s.procs[q].run.group.callbacks != [] && !Succeeded(s.procs[q])
  {
    hide AllFit, Reachable, RunOk, GroupOk, StoreOk, PhaseOk;
    WaiterSeesCommit(uploads, s, p);
    ReachableIsSafe(uploads, s);
    q := s.procs[p].notifier.value;
    SafeRun(uploads, s, p);
  }

  /** The owner of a hash does not wait: if something is to blame for its failure, it is a fault. */
  lemma OwnerIsAtFault(uploads: seq<Upload>, events: seq<Event>, q: nat) returns (k: nat)
    requires AllFit(uploads) && LegalEvents(OwnerOnly, uploads, InitState(uploads), events) && q < |uploads|
    requires var s := StateAfter(OwnerOnly, uploads, InitState(uploads), events); q < |s.procs| && s.procs[q].notifier == Some(q)
    requires Blamed(uploads, events, q)
    ensures k < |events| && IsFault(events[k], q)
  {
    k :| Blames(uploads, events, k, q);
    hide AllFit, LegalEvents, StateAfter, IsFault, RunOk, GroupOk, StoreOk, NotifierOk, RegistryOk, RaisedOk, DataOk;
    if !IsFault(events[k], q) {
      var s1 := StateAfter(OwnerOnly, uploads, InitState(uploads), events[..k]);
      NotifierStays(uploads, events, k, q);
      RunsAreSafe(uploads, events[..k]);
      SafeRun(uploads, s1, q);
      assert false;
    }
  }

  /** Every failure goes back to an exception: in the upload itself, or in one of the same image. */
  lemma FailureHasAFault(uploads: seq<Upload>, events: seq<Event>, p: nat) returns (k: nat, q: nat)
    requires AllFit(uploads) && LegalEvents(OwnerOnly, uploads, InitState(uploads), events) && p < |uploads|
    requires Blamed(uploads, events, p)
    ensures k < |events| && q < |uploads| && uploads[q].hash == uploads[p].hash && IsFault(events[k], q)
  {
    var i: nat :| Blames(uploads, events, i, p);
    hide AllFit, LegalEvents, StateAfter, IsFault, WaitsInVain, RunOk, GroupOk, Succeeded, Blamed, Safe, Doomed, Sound;
    k, q := i, p;
    if !IsFault(events[i], p) {
      var early := events[..i];
      var s := StateAfter(OwnerOnly, uploads, InitState(uploads), early);
      assert Reachable(uploads, s);
      q := WaitedForFailure(uploads, s, events[i], p);
      BlameDecides(uploads, early, q);
      RunsAreSafe(uploads, early);
      SafeRun(uploads, s, q);
      SoundEnds(uploads[q].job, s.procs[q]);
      k := OwnerIsAtFault(uploads, early, q);
      assert early[k] == events[k];
    }
  }

  /** So without any exception every upload that has replied has succeeded. */
  lemma NoFaultNoError(uploads: seq<Upload>, events: seq<Event>, p: nat)
    requires AllFit(uploads) && LegalEvents(OwnerOnly, uploads, InitState(uploads), events) && p < |uploads|
    requires forall k: nat, q: nat | k < |events| && q < |uploads| && uploads[q].hash == uploads[p].hash :: !IsFault(events[k], q)
    ensures var s := StateAfter(OwnerOnly, uploads, InitState(uploads), events);
      p < |s.procs| && (s.procs[p].replied.Some? ==> s.procs[p].replied == Some(true))
  {
    hide AllFit, LegalEvents, StateAfter, IsFault, Blamed;
    ErrorIsExact(uploads, events, p);
    if Blamed(uploads, events, p) { var k, q := FailureHasAFault(uploads, events, p); }
  }

  // ---------------------------------------------------------------- an image that is stored

  /** The upload has not looked into the data directory yet, and nothing has gone wrong with it. */
  ghost predicate HasNotLooked(x: Proc) {
    (Check in x.run.stages ==> x.run.stages[Check] == Checking(FirstLook)) && Sound(x.run.group)
  }

  /** It has looked, and was answered with `tree`. */
  ghost predicate WasAnswered(x: Proc, tree: Tree) {
    Check in x.run.stages && x.run.stages[Check].Ended? && x.answer == Some(tree) && Sound(x.run.group)
  }

  ghost predicate AnswerDue(x: Proc, tree: Tree) {
    x.notifier.None? && !x.run.isNew && (HasNotLooked(x) || WasAnswered(x, tree))
  }

  lemma LookAnswers(uploads: seq<Upload>, s: State, p: nat, tree: Tree)
    requires EventEnabled(uploads, s, CheckStep(p)) && AnswerDue(s.procs[p], tree)
    requires uploads[p].hash in s.data && s.data[uploads[p].hash] == tree
    ensures p < |CheckNext(uploads, s, p).procs| && AnswerDue(CheckNext(uploads, s, p).procs[p], tree)
  {
  }

  lemma WorkKeepsAnswer(job: Job, x: Proc, act: Act, tree: Tree)
    requires RunOk(job, x.run) && AnswerDue(x, tree) && ActEnabled(job, x.run, act) && IsWork(act) && !act.Fail?
    ensures AnswerDue(x.(run := Perform(job, x.run, act)), tree)
  {
    hide RunOk, Perform, ActEnabled, IsWork, Sound;
    NotCancelledYet(job, x.run);
    WorkKeepsCheck(job, x.run, act);
    WorkStaysSound(job, x.run, act);
  }

  lemma NotCancelledYet(job: Job, r: Run)
    requires RunOk(job, r) && Sound(r.group)
    ensures !r.group.winner.Canceller?
  {
  }

  lemma EventKeepsAnswer(uploads: seq<Upload>, s: State, e: Event, p: nat, tree: Tree)
    requires Safe(uploads, s) && EventEnabled(uploads, s, e) && p < |uploads| && !IsFault(e, p)
    requires AnswerDue(s.procs[p], tree) && uploads[p].hash in s.data && s.data[uploads[p].hash] == tree
    ensures p < |Next(OwnerOnly, uploads, s, e).procs| && AnswerDue(Next(OwnerOnly, uploads, s, e).procs[p], tree)
  {
    hide Safe, RunOk, Perform, CheckNext, FinNext, PhaseOk, StoreOk, NotifierOk, GroupOk, ActEnabled, AnswerDue;
    SafeRun(uploads, s, p);
    if e.p != p {
      OthersStay(uploads, s, e, p);
    } else {
      match e
      case Work(q, act) => WorkKeepsAnswer(uploads[p].job, s.procs[p], act, tree);
      case CheckStep(q) => LookAnswers(uploads, s, p, tree);
      case FinStep(q) => FinishesAlone(uploads, s, p); FinKeepsAnswer(uploads, s, p, tree);
    }
  }

  lemma FinKeepsAnswer(uploads: seq<Upload>, s: State, p: nat, tree: Tree)
    requires EventEnabled(uploads, s, FinStep(p)) && AnswerDue(s.procs[p], tree)
    ensures p < |FinNext(OwnerOnly, uploads, s, p).procs| && AnswerDue(FinNext(OwnerOnly, uploads, s, p).procs[p], tree)
  {
    FinishesAlone(uploads, s, p);
    hide FinNext, Sound;
  }

  lemma {:induction false} AnswerStaysDue(uploads: seq<Upload>, s: State, later: seq<Event>, p: nat, tree: Tree)
    requires AllFit(uploads) && Safe(uploads, s) && p < |uploads| == |s.procs| && LegalEvents(OwnerOnly, uploads, s, later)
    requires AnswerDue(s.procs[p], tree) && uploads[p].hash in s.data && s.data[uploads[p].hash] == tree
    requires forall k: nat | k < |later| :: !IsFault(later[k], p)
    ensures var s' := StateAfter(OwnerOnly, uploads, s, later);
      Safe(uploads, s') && p < |s'.procs| && AnswerDue(s'.procs[p], tree)
      && uploads[p].hash in s'.data && s'.data[uploads[p].hash] == tree
  {
    hide AllFit, Safe, Next, EventEnabled, AnswerDue, IsFault;
    if later == [] {
    } else {
      var before, e := later[..|later| - 1], later[|later| - 1];
      AnswerStaysDue(uploads, s, before, p, tree);
      var s1 := StateAfter(OwnerOnly, uploads, s, before);
      EventKeepsAnswer(uploads, s1, e, p, tree);
      NextIsSafe(uploads, s1, e);
      StepWritesOnce(OwnerOnly, uploads, s1, e, uploads[p].hash);
    }
  }

  /** An upload of an image that is stored when it comes to look is answered with what is stored: in
      every continuation without an exception of its own its group does not err, once its check has
      ended the answer is the stored folder, it processes nothing itself, and if it has replied, it
      has replied success. */
  lemma StoredImageIsAnswered(uploads: seq<Upload>, s: State, later: seq<Event>, p: nat)
    requires AllFit(uploads) && Reachable(uploads, s) && p < |uploads| == |s.procs| && uploads[p].hash in s.data
    requires HasNotLooked(s.procs[p]) && LegalEvents(OwnerOnly, uploads, s, later)
    requires forall k: nat | k < |later| :: !IsFault(later[k], p)
    ensures var s' := StateAfter(OwnerOnly, uploads, s, later);
      && p < |s'.procs|
      && var x := s'.procs[p];
         && !x.run.group.state.DoneError? && OnError !in x.run.group.callbacks
         && (Check in x.run.stages && x.run.stages[Check].Ended? ==> x.answer == Some(s.data[uploads[p].hash]))
         && !x.run.isNew && Load !in x.run.stages && x.notifier.None?
         && (x.replied.Some? ==> x.replied == Some(true))
  {
    hide AllFit, Reachable, Safe, RunOk, StoreOk, NotifierOk, Next, EventEnabled, LegalEvents, StateAfter, IsFault;
    ReachableIsSafe(uploads, s);
    SafeRun(uploads, s, p);
    NotLookedIsOld(uploads[p].job, s.procs[p].run);
    var tree := s.data[uploads[p].hash];
    AnswerStaysDue(uploads, s, later, p, tree);
    var s' := StateAfter(OwnerOnly, uploads, s, later);
    SafeRun(uploads, s', p);
    SoundIsQuiet(uploads[p].job, s'.procs[p].run);
    if s'.procs[p].run.group.callbacks != [] { SoundEnds(uploads[p].job, s'.procs[p]); }
  }

  lemma NotLookedIsOld(job: Job, r: Run)
    requires RunOk(job, r) && (Check in r.stages ==> r.stages[Check] == Checking(FirstLook))
    ensures !r.isNew
  {
  }

  lemma SoundIsQuiet(job: Job, r: Run)
    requires RunOk(job, r) && Sound(r.group)
    ensures OnError !in r.group.callbacks && (!r.isNew ==> Load !in r.stages)
  {
  }

  // ---------------------------------------------------------------- what load_image threw

  predicate HasThrown(pc: Pc<Fanout.Work>) {
    pc.Caught? || pc.CaughtDecrement? || pc.Reporting? || pc == Done(Errored)
  }

  /** `load_image` has thrown, with its body at `stage`. */
  predicate ThrewAt(r: Run, stage: Stage) {
    Load in r.group.tasks && HasThrown(r.group.tasks[Load]) && Load in r.stages && r.stages[Load] == stage
  }

  lemma InnerThrows(job: Job, r: Run, a: Action<Fanout.Work>, stage: Stage)
    requires ActEnabled(job, r, Inner(a)) && ThrewAt(Perform(job, r, Inner(a)), stage)
    requires r.group.caller.Counted? ==> r.group.caller.child in r.group.tasks
    ensures ThrewAt(r, stage)
  {
    if a.Wrapper? {
      TaskGroupInvariant.WrapperShape(r.group, a.task);
      if a.task == Load { WrapperThrows(r.group); }
      hide WrapperStep;
    }
  }

  lemma WrapperThrows(g: Group<Fanout.Work>)
    requires Enabled(g, Wrapper(Load)) && Load in WrapperStep(g, Load).tasks && HasThrown(WrapperStep(g, Load).tasks[Load])
    ensures HasThrown(g.tasks[Load])
  {
  }

  lemma OpThrows(job: Job, r: Run, w: Fanout.Work, stage: Stage)
    requires RunOk(job, r) && ActEnabled(job, r, Op(w)) && ThrewAt(Perform(job, r, Op(w)), stage)
    ensures ThrewAt(r, stage)
  {
    hide RunOk, BodyOp, AddLoad, FanoutInvariant.KindOk, NextChild, ThrewAt;
    SchedulerProgress.TaskHasStage(job, r, w);
    BodyIsPending(job, r, w);
    FolderIsThere(job, r, w);
    if NextChild(r, w).Some? {
      AddLoadThrows(r, w, stage);
    } else if r.stages[w].Ended? {
      FanoutInvariant.EndedOp(job, r, w);
      ReturnThrows(r, w, stage);
    } else {
      BodyThrows(job, r, w, stage);
    }
  }

  lemma ReturnThrows(r: Run, w: Fanout.Work, stage: Stage)
    requires At(r.group, w, Body) && ThrewAt(r.(group := Step(r.group, Return(w))), stage)
    ensures ThrewAt(r, stage)
  {
  }

  lemma AddLoadThrows(r: Run, w: Fanout.Work, stage: Stage)
    requires At(r.group, w, Body) && w in r.stages && !r.group.state.DoneOk? && ThrewAt(AddLoad(r, w), stage)
    ensures ThrewAt(r, stage)
  {
  }

  lemma BodyThrows(job: Job, r: Run, w: Fanout.Work, stage: Stage)
    requires At(r.group, w, Body) && w in r.stages && InRange(r, w) && FanoutInvariant.KindOk(w, r.stages[w])
    requires !r.stages[w].Ended? && !r.stages[w].Checking? && NextChild(r, w).None?
    requires w.Save? ==> Sized(r.dims[w.index].width, r.dims[w.index].height) in r.tree
    requires ThrewAt(BodyOp(job, r, w), stage)
    ensures ThrewAt(r, stage)
  {
    FanoutCapacity.BodyKeepsGroup(job, r, w);
    assert w != Load;
    match w
    case Check =>
    case Resize(i) =>
    case Save(i, j) =>
  }

  lemma CountThrows(job: Job, r: Run, w: Fanout.Work, stage: Stage)
    requires ActEnabled(job, r, Fanout.Count(w)) && ThrewAt(Perform(job, r, Fanout.Count(w)), stage)
    ensures ThrewAt(r, stage)
  {
    hide NextChild;
  }

  lemma HandThrows(job: Job, r: Run, w: Fanout.Work, stage: Stage)
    requires ActEnabled(job, r, Hand(w)) && ThrewAt(Perform(job, r, Hand(w)), stage)
    ensures ThrewAt(r, stage)
  {
    hide AfterAdd;
  }

  lemma FailThrows(job: Job, r: Run, w: Fanout.Work, stage: Stage)
    requires ActEnabled(job, r, Fail(w)) && ThrewAt(Perform(job, r, Fail(w)), stage)
    ensures ThrewAt(r, stage) || (w == Load && Load in r.stages && r.stages[Load] == stage)
  {
  }

  /** Only its own exception makes `load_image` throw. */
  lemma ActThrows(job: Job, r: Run, act: Act, stage: Stage)
    requires RunOk(job, r) && ActEnabled(job, r, act) && ThrewAt(Perform(job, r, act), stage)
    ensures ThrewAt(r, stage) || (act == Fail(Load) && Load in r.stages && r.stages[Load] == stage)
  {
    assert r.group.caller.Counted? ==> r.group.caller.child in r.group.tasks;
    hide RunOk, Perform, ActEnabled, ThrewAt;
    match act
    case Inner(a) => InnerThrows(job, r, a, stage);
    case Decide(to) => DecideThrows(job, r, to, stage);
    case Op(w) => OpThrows(job, r, w, stage);
    case Count(w) => CountThrows(job, r, w, stage);
    case Hand(w) => HandThrows(job, r, w, stage);
    case Fail(w) => FailThrows(job, r, w, stage);
  }

  lemma DecideThrows(job: Job, r: Run, to: Stage, stage: Stage)
    requires ActEnabled(job, r, Decide(to)) && ThrewAt(Perform(job, r, Decide(to)), stage)
    ensures ThrewAt(r, stage)
  {
  }

  lemma EventThrows(uploads: seq<Upload>, s: State, e: Event, p: nat, stage: Stage)
    requires Safe(uploads, s) && EventEnabled(uploads, s, e) && p < |uploads|
    requires p < |Next(OwnerOnly, uploads, s, e).procs| && ThrewAt(Next(OwnerOnly, uploads, s, e).procs[p].run, stage)
    ensures p < |s.procs|
    ensures ThrewAt(s.procs[p].run, stage)
            || (e == Work(p, Fail(Load)) && Load in s.procs[p].run.stages && s.procs[p].run.stages[Load] == stage)
  {
    hide Safe, RunOk, Perform, CheckNext, FinNext, PhaseOk, StoreOk, NotifierOk, GroupOk, ActEnabled, ThrewAt, MayCheck,
      SchedulerTermination.CheckAct;
    SafeRun(uploads, s, p);
    if e.p != p {
      OthersStay(uploads, s, e, p);
    } else {
      match e
      case Work(q, act) => ActThrows(uploads[p].job, s.procs[p].run, act, stage);
      case CheckStep(q) =>
        SchedulerTermination.CheckActIs(uploads, s, p);
        ActThrows(uploads[p].job, s.procs[p].run, SchedulerTermination.CheckAct(uploads, s, p), stage);
      case CheckFails(q) =>
        LookFails(s.procs[p]);
        ActThrows(uploads[p].job, s.procs[p].run, Fail(Check), stage);
      case FinStep(q) => FinishesAlone(uploads, s, p);
    }
  }

  /** The `k`-th event is an exception in `load_image` of upload `p`, whose body stood at `stage`. */
  ghost predicate LoadThrowsAt(uploads: seq<Upload>, events: seq<Event>, k: nat, p: nat, stage: Stage) {
    && k < |events| && events[k] == Work(p, Fail(Load)) && LegalEvents(OwnerOnly, uploads, InitState(uploads), events[..k])
    && var s := StateAfter(OwnerOnly, uploads, InitState(uploads), events[..k]);
       p < |s.procs| && Load in s.procs[p].run.stages && s.procs[p].run.stages[Load] == stage
  }

  /** What `load_image` is seen to have thrown was thrown by an event of the run, at the stage where
      its body still stands. */
  lemma {:induction false} LoadThrewOnce(uploads: seq<Upload>, events: seq<Event>, p: nat, stage: Stage) returns (k: nat)
    requires AllFit(uploads) && LegalEvents(OwnerOnly, uploads, InitState(uploads), events) && p < |uploads|
    requires var s := StateAfter(OwnerOnly, uploads, InitState(uploads), events); p < |s.procs| && ThrewAt(s.procs[p].run, stage)
    ensures LoadThrowsAt(uploads, events, k, p, stage)
  {
    hide AllFit, Safe, Next, EventEnabled, ThrewAt;
    if events == [] {
      NothingThrown(uploads[p].job, stage);
      assert false;
    } else {
      var before, e := events[..|events| - 1], events[|events| - 1];
      var s := LegalBefore(uploads, events);
      EventThrows(uploads, s, e, p, stage);
      if ThrewAt(s.procs[p].run, stage) {
        k := LoadThrewOnce(uploads, before, p, stage);
        assert before[..k] == events[..k];
      } else {
        k := |events| - 1;
      }
    }
  }

  lemma NothingThrown(job: Job, stage: Stage)
    ensures !ThrewAt(InitProc(job).run, stage)
  {
  }

  lemma WonByLoad(job: Job, r: Run)
    requires RunOk(job, r) && r.group.winner == Won(Load) && r.group.state.DoneError?
    ensures Load in r.stages && ThrewAt(r, r.stages[Load])
  {
  }
}
