/** What every step of the server keeps under the intended rule of `finalize`. */
module ServerInvariant {
  import opened TaskGroups
  import TaskGroupInvariant
  import TaskGroupTheorems
  import opened Fanout
  import FanoutInvariant
  import opened FanoutTheorems
  import opened Server

  /** How far the check of `x` has come, if it has started and not gone on to add tasks. */
  function CheckOf(x: Proc): Option<CheckPc> {
    if Check in x.run.stages && x.run.stages[Check].Checking? then Some(x.run.stages[Check].pc) else None
  }

  predicate Started(x: Proc) {
    Check in x.run.stages
  }

  predicate Owner(s: State, p: nat)
    requires p < |s.procs|
  {
    s.procs[p].notifier == Some(p)
  }

  /** `p` owns its hash and has not erased its entry yet. */
  predicate Owns(s: State, p: nat)
    requires p < |s.procs|
  {
    Owner(s, p) && (s.procs[p].fin.AtGuard? || s.procs[p].fin.AtCommit? || s.procs[p].fin.AtErase?)
  }

  predicate BeforeErase(fin: Finalizing) {
    fin.AtGuard? || fin.AtCommit?
  }

  /** The existence check, the group and `finalize` of one upload agree with each other. */
  predicate PhaseOk(x: Proc, p: nat) {
    && (!Started(x) || CheckOf(x) == Some(FirstLook) || CheckOf(x) == Some(Emplacing) ==> x.notifier.None?)
    && (CheckOf(x) == Some(Waiting) || CheckOf(x) == Some(LookAfterWait) ==> x.notifier.Some? && x.notifier != Some(p))
    && (CheckOf(x) == Some(LookAgain) || x.run.isNew ==> x.notifier == Some(p))
    && (Started(x) && x.run.stages[Check].Ended? ==> x.run.isNew || x.answer.Some?)
    && (x.answer.Some? ==> Started(x) && !x.run.isNew && CheckOf(x).None?)
    && (!x.fin.AtGuard? ==> x.run.group.callbacks != [])
    && (x.fin.AtCommit? || x.fin.AtErase? || x.fin.AtNotify? ==> x.notifier == Some(p))
    && (x.fin.AtCommit? ==> Succeeded(x) && x.run.staged)
    && (x.run.group.caller.Finished? ==> Started(x))
    && (x.replied.Some? <==> x.fin.Finalized?)
    && (x.replied.Some? ==> x.replied.value == Succeeded(x))
  }

  ghost predicate GroupOk(job: Job, x: Proc) {
    RunOk(job, x.run) && !x.run.group.cancelling && !x.run.group.winner.Canceller?
  }

  /** What one upload's progress says about the data directory. */
  predicate StoreOk(h: Hash, s: State, p: nat)
    requires p < |s.procs|
  {
    var x := s.procs[p];
    && (x.answer.Some? ==> h in s.data && s.data[h] == x.answer.value)
    && (x.run.isNew && BeforeErase(x.fin) ==> h !in s.data)
    && (Owner(s, p) && !BeforeErase(x.fin) && Succeeded(x) ==> h in s.data)
  }

  /** A notifier belongs to an upload of the same hash whose `emplace` created it. */
  predicate NotifierOk(uploads: seq<Upload>, s: State, p: nat)
    requires p < |s.procs| == |uploads|
  {
    var x := s.procs[p];
    x.notifier.Some? ==>
      var q := x.notifier.value;
      && q < |uploads| && uploads[q].hash == uploads[p].hash && Owner(s, q)
      && (CheckOf(x) == Some(LookAfterWait) ==> s.procs[q].fin.AtHook? || s.procs[q].fin.Finalized?)
  }

  ghost predicate RegistryOk(uploads: seq<Upload>, s: State)
    requires |s.procs| == |uploads|
  {
    && (forall h | h in s.registry ::
         var q := s.registry[h]; q < |uploads| && uploads[q].hash == h && Owns(s, q))
    && (forall p: nat | p < |uploads| && Owns(s, p) ::
         uploads[p].hash in s.registry && s.registry[uploads[p].hash] == p)
  }

  ghost predicate RaisedOk(s: State) {
    forall p: nat :: p in s.raised <==>
      p < |s.procs| && Owner(s, p) && !s.procs[p].fin.AtHook? && !s.procs[p].fin.Finalized?
  }

  /** Every folder in the data directory is one upload's complete result. */
  ghost predicate DataOk(uploads: seq<Upload>, s: State)
    requires |s.procs| == |uploads|
  {
    && s.author.Keys == s.data.Keys
    && (forall h | h in s.data ::
         var q := s.author[h];
         && q < |uploads| && uploads[q].hash == h && Succeeded(s.procs[q]) && s.procs[q].run.isNew
         && s.data[h] == TreeOf(uploads[q].job, |uploads[q].job.sizes|))
  }

  ghost predicate ProcOk(uploads: seq<Upload>, s: State, p: nat)
    requires p < |s.procs| == |uploads|
  {
    && GroupOk(uploads[p].job, s.procs[p]) && PhaseOk(s.procs[p], p)
    && StoreOk(uploads[p].hash, s, p) && NotifierOk(uploads, s, p)
  }

  ghost predicate Safe(uploads: seq<Upload>, s: State) {
    && |s.procs| == |uploads| && !s.crashed
    && (forall p: nat | p < |uploads| :: ProcOk(uploads, s, p))
    && RegistryOk(uploads, s) && RaisedOk(s) && DataOk(uploads, s)
  }

  predicate AllFit(uploads: seq<Upload>) {
    forall p: nat | p < |uploads| :: Fits(uploads[p].job)
  }

  lemma InitSafe(uploads: seq<Upload>)
    ensures Safe(uploads, InitState(uploads))
  {
    forall p: nat | p < |uploads| ensures ProcOk(uploads, InitState(uploads), p) {
      InitRunOk(uploads[p].job);
    }
  }

  // ---------------------------------------------------------------- what a task's step may do

  lemma StepEffect(g: Group<Fanout.Work>, a: Action<Fanout.Work>)
    requires Enabled(g, a) && !a.Cancel? && !a.CancelCallback?
    ensures var g' := Step(g, a);
      && (g'.callbacks == g.callbacks || |g'.callbacks| == |g.callbacks| + 1)
      && g'.cancelling == g.cancelling && (g'.winner.Canceller? ==> g.winner.Canceller?)
  {
    if a.Wrapper? {
      match g.tasks[a.task]
      case Starting =>
      case LateDecrement =>
      case SkipDecrement =>
      case Caught =>
      case CaughtDecrement(exchanged) =>
      case Reporting(exchanged) =>
      case Returned =>
      case Zeroing =>
      case Claiming =>
      case Announcing =>
    }
  }

  lemma GroupEffect(job: Job, r: Run, act: Act)
    requires RunOk(job, r) && Fits(job) && ActEnabled(job, r, act)
    requires act.Inner? ==> !act.a.Cancel? && !act.a.CancelCallback?
    ensures var r' := Perform(job, r, act);
      && RunOk(job, r')
      && (r'.group.callbacks == r.group.callbacks || (r.group.callbacks == [] && |r'.group.callbacks| == 1))
      && r'.group.cancelling == r.group.cancelling
      && (r'.group.winner.Canceller? ==> r.group.winner.Canceller?)
  {
    ActKeepsRunOk(job, r, act);
    FanoutInvariant.ActIsGroupStep(job, r, act);
    OneCallback(r.group);
    OneCallback(Perform(job, r, act).group);
    hide RunOk, Fits, Perform, Step, Enabled;
    var g, g' := r.group, Perform(job, r, act).group;
    if g' != g {
      var a :| Enabled(g, a) && g' == Step(g, a) && (a.Cancel? || a.CancelCallback? ==> act == Inner(a));
      StepEffect(g, a);
    }
  }

  lemma OneCallback(g: Group<Fanout.Work>)
    requires TaskGroupInvariant.Inv(g)
    ensures |g.callbacks| <= 1
  {
  }

  /** A step of a task leaves the check's protocol, and what it decided, alone. */
  ghost predicate KeepsCheck(r: Run, r': Run) {
    && r'.isNew == r.isNew && (r.staged ==> r'.staged)
    && (Check in r.stages ==>
         Check in r'.stages
         && (r'.stages[Check] == r.stages[Check] || (r.stages[Check].CheckAdds? && r'.stages[Check].Ended?)))
    && (Check !in r.stages ==> Check !in r'.stages || r'.stages[Check] == Checking(FirstLook))
    && (r'.group.caller.Finished? ==> r.group.caller.Finished? || Check in r'.stages)
  }

  lemma CountKeepsCheck(job: Job, r: Run, w: Fanout.Work)
    requires FanoutInvariant.ShapeOk(r) && FanoutInvariant.ParentsOk(r) && ActEnabled(job, r, Count(w))
    ensures KeepsCheck(r, Perform(job, r, Count(w)))
  {
    FanoutInvariant.ChildIsFresh(r, w);
    hide FanoutInvariant.ShapeOk, FanoutInvariant.ParentsOk;
  }

  lemma HandKeepsCheck(job: Job, r: Run, w: Fanout.Work)
    requires FanoutInvariant.ShapeOk(r) && ActEnabled(job, r, Hand(w))
    ensures KeepsCheck(r, Perform(job, r, Hand(w)))
  {
    assert FanoutInvariant.PcOk(r, w) && FanoutInvariant.KindOk(w, r.stages[w]);
    hide FanoutInvariant.ShapeOk;
  }

  /** The creating thread is done only once it has added the check. */
  lemma CallerAddsCheck(job: Job, r: Run, a: Action<Fanout.Work>)
    requires RunOk(job, r) && !r.group.winner.Canceller? && IsWork(Inner(a)) && ActEnabled(job, r, Inner(a))
    requires a.CallerLoad? || a.CallerPush?
    ensures Perform(job, r, Inner(a)).group.caller.Finished? ==> Check in r.stages
  {
    if a.CallerPush? {
      FanoutInvariant.CheckIsFirst(r, r.group.caller.child);
    } else {
      assert r.group.tasks == map[];
      assert r.group.state.Running?;
    }
  }

  lemma InnerKeepsCheck(job: Job, r: Run, a: Action<Fanout.Work>)
    requires RunOk(job, r) && !r.group.winner.Canceller? && IsWork(Inner(a)) && ActEnabled(job, r, Inner(a))
    ensures KeepsCheck(r, Perform(job, r, Inner(a)))
  {
    assert Check in r.stages <==> Check in r.group.tasks;
    if a.CallerLoad? || a.CallerPush? { CallerAddsCheck(job, r, a); }
    if a.Wrapper? { TaskGroupInvariant.WrapperShape(r.group, a.task); }
    hide RunOk, WrapperStep;
  }

  lemma WorkKeepsCheck(job: Job, r: Run, act: Act)
    requires RunOk(job, r) && !r.group.winner.Canceller? && IsWork(act) && ActEnabled(job, r, act)
    ensures KeepsCheck(r, Perform(job, r, act))
  {
    match act
    case Inner(a) => InnerKeepsCheck(job, r, a);
    case Op(w) =>
      assert FanoutInvariant.KindOk(w, r.stages[w]);
      hide RunOk;
      OpKeepsCheck(job, r, w);
    case Count(w) => CountKeepsCheck(job, r, w);
    case Hand(w) => HandKeepsCheck(job, r, w);
    case Fail(w) => hide RunOk;
  }

  lemma OpKeepsCheck(job: Job, r: Run, w: Fanout.Work)
    requires ActEnabled(job, r, Op(w)) && FanoutInvariant.KindOk(w, r.stages[w])
    ensures KeepsCheck(r, Perform(job, r, Op(w)))
  {
    hide KeepsCheck, BodyOp, AddLoad;
    if NextChild(r, w).Some? {
      AddLoadKeepsCheck(r, w);
    } else {
      match w
      case Check => CheckOpKeepsCheck(job, r);
      case Load => LoadOpKeepsCheck(job, r);
      case Resize(i) => ResizeOpKeepsCheck(job, r, i);
      case Save(i, j) => SaveOpKeepsCheck(job, r, i, j);
    }
  }

  lemma AddLoadKeepsCheck(r: Run, w: Fanout.Work)
    requires At(r.group, w, Body) && w in r.stages && NextChild(r, w).Some? && FanoutInvariant.KindOk(w, r.stages[w])
    ensures KeepsCheck(r, AddLoad(r, w))
  {
  }

  lemma CheckOpKeepsCheck(job: Job, r: Run)
    requires ActEnabled(job, r, Op(Check)) && NextChild(r, Check).None? && FanoutInvariant.KindOk(Check, r.stages[Check])
    ensures KeepsCheck(r, BodyOp(job, r, Check))
  {
  }

  lemma LoadOpKeepsCheck(job: Job, r: Run)
    requires ActEnabled(job, r, Op(Load)) && FanoutInvariant.KindOk(Load, r.stages[Load])
    ensures KeepsCheck(r, BodyOp(job, r, Load))
  {
    match r.stages[Load]
    case LoadStages =>
    case LoadDetects =>
    case LoadWrites =>
    case LoadPushes(k) =>
    case LoadAdds(k) =>
    case Ended =>
  }

  lemma ResizeOpKeepsCheck(job: Job, r: Run, i: nat)
    requires ActEnabled(job, r, Op(Resize(i))) && FanoutInvariant.KindOk(Resize(i), r.stages[Resize(i)])
    ensures KeepsCheck(r, BodyOp(job, r, Resize(i)))
  {
    match r.stages[Resize(i)]
    case ResizeScales =>
    case ResizeMakesFolder =>
    case ResizeLists(k) =>
    case ResizeAdds(k) =>
    case Ended =>
  }

  lemma SaveOpKeepsCheck(job: Job, r: Run, i: nat, j: nat)
    requires ActEnabled(job, r, Op(Save(i, j))) && FanoutInvariant.KindOk(Save(i, j), r.stages[Save(i, j)])
    ensures KeepsCheck(r, BodyOp(job, r, Save(i, j)))
  {
    match r.stages[Save(i, j)]
    case SaveEncodes =>
    case SaveWrites(content) =>
    case Ended =>
  }

  // ---------------------------------------------------------------- steps inside one upload

  /** One upload moved on inside its group or its check; all that is shared stayed. */
  ghost predicate MovedAlone(s: State, s': State, p: nat) {
    && p < |s.procs| == |s'.procs| && s' == Put(s, p, s'.procs[p])
    && s'.procs[p].fin == s.procs[p].fin && s'.procs[p].replied == s.procs[p].replied
    && s'.procs[p].notifier == s.procs[p].notifier
    && (s'.procs[p].run.group.callbacks == s.procs[p].run.group.callbacks || s.procs[p].run.group.callbacks == [])
  }

  lemma AloneKeepsShared(uploads: seq<Upload>, s: State, s': State, p: nat)
    requires Safe(uploads, s) && MovedAlone(s, s', p) && (s.procs[p].run.isNew ==> s'.procs[p].run.isNew)
    ensures RegistryOk(uploads, s') && RaisedOk(s') && DataOk(uploads, s')
  {
    forall q: nat ensures q < |uploads| ==> s'.procs[q].notifier == s.procs[q].notifier && s'.procs[q].fin == s.procs[q].fin {
    }
    forall h | h in s'.data ensures Succeeded(s'.procs[s'.author[h]]) && s'.procs[s'.author[h]].run.isNew {
    }
  }

  lemma AloneKeepsOthers(uploads: seq<Upload>, s: State, s': State, p: nat, q: nat)
    requires Safe(uploads, s) && MovedAlone(s, s', p) && q < |uploads| && q != p
    ensures ProcOk(uploads, s', q)
  {
    assert ProcOk(uploads, s, q);
    hide GroupOk;
  }

  /** It is enough to look at the upload that moved. */
  lemma AloneIsSafe(uploads: seq<Upload>, s: State, s': State, p: nat)
    requires Safe(uploads, s) && MovedAlone(s, s', p) && (s.procs[p].run.isNew ==> s'.procs[p].run.isNew)
    requires ProcOk(uploads, s', p)
    ensures Safe(uploads, s')
  {
    AloneKeepsShared(uploads, s, s', p);
    hide ProcOk, RegistryOk, RaisedOk, DataOk;
    forall q: nat | q < |uploads| ensures ProcOk(uploads, s', q) {
      if q != p { AloneKeepsOthers(uploads, s, s', p, q); }
    }
  }

  lemma AddsMeansNew(job: Job, r: Run)
    requires RunOk(job, r)
    ensures Check in r.stages && r.stages[Check].CheckAdds? ==> r.isNew
  {
  }

  lemma WorkIsSafe(uploads: seq<Upload>, s: State, p: nat, act: Act)
    requires Safe(uploads, s) && AllFit(uploads) && EventEnabled(uploads, s, Work(p, act))
    ensures Safe(uploads, Next(OwnerOnly, uploads, s, Work(p, act)))
  {
    hide RunOk, RegistryOk, RaisedOk, DataOk, PhaseOk, StoreOk, NotifierOk, Perform, ActEnabled;
    var job, s' := uploads[p].job, Next(OwnerOnly, uploads, s, Work(p, act));
    assert ProcOk(uploads, s, p);
    WorkKeepsCheck(job, s.procs[p].run, act);
    GroupEffect(job, s.procs[p].run, act);
    AddsMeansNew(job, s.procs[p].run);
    assert s'.procs[p].run.isNew == s.procs[p].run.isNew;
    hide KeepsCheck;
    WorkKeepsProc(uploads, s, s', p);
    AloneIsSafe(uploads, s, s', p);
  }

  lemma WorkKeepsPhase(x: Proc, r': Run, p: nat)
    requires PhaseOk(x, p) && KeepsCheck(x.run, r')
    requires r'.group.callbacks == x.run.group.callbacks || x.run.group.callbacks == []
    requires Started(x) && x.run.stages[Check].CheckAdds? ==> x.run.isNew
    ensures PhaseOk(x.(run := r'), p)
    ensures CheckOf(x.(run := r')) == CheckOf(x) || (!Started(x) && CheckOf(x.(run := r')) == Some(FirstLook))
    ensures !x.fin.AtGuard? ==> Succeeded(x.(run := r')) == Succeeded(x)
  {
  }

  lemma WorkKeepsProc(uploads: seq<Upload>, s: State, s': State, p: nat)
    requires p < |s.procs| == |uploads| && MovedAlone(s, s', p)
    requires PhaseOk(s.procs[p], p) && StoreOk(uploads[p].hash, s, p) && NotifierOk(uploads, s, p)
    requires var r, r' := s.procs[p].run, s'.procs[p].run; KeepsCheck(r, r') && s'.procs[p] == s.procs[p].(run := r')
    requires Started(s.procs[p]) && s.procs[p].run.stages[Check].CheckAdds? ==> s.procs[p].run.isNew
    ensures PhaseOk(s'.procs[p], p) && StoreOk(uploads[p].hash, s', p) && NotifierOk(uploads, s', p)
  {
    assert s'.procs[p].run.isNew == s.procs[p].run.isNew;
    WorkKeepsPhase(s.procs[p], s'.procs[p].run, p);
    hide PhaseOk, KeepsCheck, CheckOf;
  }

  // ---------------------------------------------------------------- steps of the existence check

  /** While the check still looks, it is the only task and nothing has been called back. */
  lemma CheckingIsEarly(job: Job, x: Proc, p: nat)
    requires GroupOk(job, x) && PhaseOk(x, p) && InCheck(x)
    ensures x.run.group.callbacks == [] && x.fin.AtGuard? && !x.run.isNew && x.answer.None? && Started(x)
  {
    FanoutInvariant.OnlyCheck(x.run);
    assert x.run.group.tasks.Keys == {Check};
    assert !x.run.group.winner.Won?;
  }

  lemma DecideEffect(job: Job, x: Proc, p: nat, to: Stage)
    requires Fits(job) && GroupOk(job, x) && PhaseOk(x, p) && InCheck(x) && CanDecide(to)
    ensures var x' := x.(run := Perform(job, x.run, Decide(to)));
      && GroupOk(job, x') && x'.run.group == x.run.group && x'.run.isNew == to.CheckAdds?
      && x'.run.stages == x.run.stages[Check := to]
  {
    CheckingIsEarly(job, x, p);
    ActKeepsRunOk(job, x.run, Decide(to));
  }

  lemma ThrowEffect(job: Job, x: Proc, p: nat)
    requires Fits(job) && GroupOk(job, x) && PhaseOk(x, p) && InCheck(x)
    ensures var x' := x.(run := Perform(job, x.run, Fail(Check)));
      && GroupOk(job, x') && x'.run.stages == x.run.stages && x'.run.isNew == x.run.isNew
      && x'.run.group.callbacks == x.run.group.callbacks && x'.run.group.caller == x.run.group.caller
  {
    hide RunOk;
    GroupEffect(job, x.run, Fail(Check));
  }

  /** After a step of the check only the upload that took it has to be looked at. */
  lemma CheckStepIsSafe(uploads: seq<Upload>, s: State, x': Proc, p: nat)
    requires Safe(uploads, s) && p < |uploads| && MovedAlone(s, Put(s, p, x'), p) && !s.procs[p].run.isNew
    requires GroupOk(uploads[p].job, x') && PhaseOk(x', p)
    requires StoreOk(uploads[p].hash, Put(s, p, x'), p) && NotifierOk(uploads, Put(s, p, x'), p)
    ensures Safe(uploads, Put(s, p, x'))
  {
    hide RunOk, RegistryOk, RaisedOk, DataOk, PhaseOk, StoreOk, NotifierOk;
    AloneIsSafe(uploads, s, Put(s, p, x'), p);
  }

  lemma ThrowIsSafe(uploads: seq<Upload>, s: State, p: nat)
    requires Safe(uploads, s) && AllFit(uploads) && p < |uploads| && InCheck(s.procs[p])
    ensures Safe(uploads, Put(s, p, s.procs[p].(run := Perform(uploads[p].job, s.procs[p].run, Fail(Check)))))
  {
    hide RunOk, RegistryOk, RaisedOk, DataOk, Perform;
    var x := s.procs[p];
    assert ProcOk(uploads, s, p);
    CheckingIsEarly(uploads[p].job, x, p);
    ThrowEffect(uploads[p].job, x, p);
    var x' := x.(run := Perform(uploads[p].job, x.run, Fail(Check)));
    CheckStepIsSafe(uploads, s, x', p);
  }

  /** A look into the data directory that finds the folder ends the check. */
  lemma FoundIsSafe(uploads: seq<Upload>, s: State, p: nat)
    requires Safe(uploads, s) && AllFit(uploads) && p < |uploads| && InCheck(s.procs[p]) && uploads[p].hash in s.data
    ensures Safe(uploads, Put(s, p, Found(uploads[p].job, s.procs[p], s.data[uploads[p].hash])))
  {
    hide RunOk, RegistryOk, RaisedOk, DataOk, Perform;
    var x := s.procs[p];
    assert ProcOk(uploads, s, p);
    CheckingIsEarly(uploads[p].job, x, p);
    DecideEffect(uploads[p].job, x, p, Ended);
    CheckStepIsSafe(uploads, s, Found(uploads[p].job, x, s.data[uploads[p].hash]), p);
  }

  /** Steps that neither find the folder nor touch the registry. */
  predicate GoesOn(uploads: seq<Upload>, s: State, p: nat, to: Stage)
    requires p < |s.procs| == |uploads| && InCheck(s.procs[p])
  {
    match s.procs[p].run.stages[Check].pc
    case FirstLook => to == Checking(Emplacing)
    case Waiting => to == Checking(LookAfterWait) && s.procs[p].notifier.Some? && s.procs[p].notifier.value !in s.raised
    case LookAgain => to == CheckAdds && uploads[p].hash !in s.data
    case _ => false
  }

  lemma GoIsSafe(uploads: seq<Upload>, s: State, p: nat, to: Stage)
    requires Safe(uploads, s) && AllFit(uploads) && p < |uploads| && InCheck(s.procs[p]) && GoesOn(uploads, s, p, to)
    ensures Safe(uploads, Put(s, p, s.procs[p].(run := Perform(uploads[p].job, s.procs[p].run, Decide(to)))))
  {
    hide RunOk, RegistryOk, DataOk, Perform;
    var x := s.procs[p];
    assert ProcOk(uploads, s, p);
    CheckingIsEarly(uploads[p].job, x, p);
    DecideEffect(uploads[p].job, x, p, to);
    var x' := x.(run := Perform(uploads[p].job, x.run, Decide(to)));
    GoKeepsNotifier(uploads, s, x', p, to);
    hide RaisedOk, NotifierOk;
    CheckStepIsSafe(uploads, s, x', p);
  }

  lemma GoKeepsNotifier(uploads: seq<Upload>, s: State, x': Proc, p: nat, to: Stage)
    requires p < |s.procs| == |uploads| && NotifierOk(uploads, s, p) && RaisedOk(s)
    requires InCheck(s.procs[p]) && GoesOn(uploads, s, p, to)
    requires x'.notifier == s.procs[p].notifier && x'.fin == s.procs[p].fin
    requires Check in x'.run.stages && x'.run.stages[Check] == to
    ensures NotifierOk(uploads, Put(s, p, x'), p)
  {
  }

  // ---------------------------------------------------------------- emplace

  /** The hash is being processed: the upload takes the owner's notifier and will wait. */
  lemma JoinIsSafe(uploads: seq<Upload>, s: State, x': Proc, p: nat, q: nat)
    requires Safe(uploads, s) && p < |uploads| && s.procs[p].notifier.None? && !s.procs[p].run.isNew
    requires uploads[p].hash in s.registry && s.registry[uploads[p].hash] == q
    requires GroupOk(uploads[p].job, x') && x'.notifier == Some(q) && x'.fin == s.procs[p].fin && Started(x')
    requires x'.run.group.callbacks == s.procs[p].run.group.callbacks && CheckOf(x') == Some(Waiting)
    requires x'.answer.None? && !x'.run.isNew && x'.fin.AtGuard? && x'.replied.None?
    ensures Safe(uploads, Put(s, p, x'))
  {
    hide RunOk, ProcOk;
    var s' := Put(s, p, x');
    assert ProcOk(uploads, s, p);
    assert q != p by { OwnerIsAnother(uploads, s, p, q); }
    assert Owner(s, q) && q < |uploads| && uploads[q].hash == uploads[p].hash;
    forall o: nat | o < |uploads| ensures ProcOk(uploads, s', o) {
      assert ProcOk(uploads, s, o);
      JoinKeepsProc(uploads, s, x', p, q, o);
    }
    JoinKeepsShared(uploads, s, x', p, q);
  }

  lemma OwnerIsAnother(uploads: seq<Upload>, s: State, p: nat, q: nat)
    requires Safe(uploads, s) && p < |uploads| && s.procs[p].notifier.None?
    requires uploads[p].hash in s.registry && s.registry[uploads[p].hash] == q
    ensures q != p
  {
    hide ProcOk, RaisedOk, DataOk;
  }

  lemma JoinKeepsProc(uploads: seq<Upload>, s: State, x': Proc, p: nat, q: nat, o: nat)
    requires |s.procs| == |uploads| && p < |uploads| && o < |uploads| && q < |uploads| && q != p
    requires ProcOk(uploads, s, o) && ProcOk(uploads, s, p) && Owner(s, q) && uploads[q].hash == uploads[p].hash
    requires s.procs[p].notifier.None? && !s.procs[p].run.isNew
    requires GroupOk(uploads[p].job, x') && x'.notifier == Some(q) && x'.fin == s.procs[p].fin && Started(x')
    requires x'.run.group.callbacks == s.procs[p].run.group.callbacks && CheckOf(x') == Some(Waiting)
    requires x'.answer.None? && !x'.run.isNew && x'.fin.AtGuard? && x'.replied.None?
    ensures ProcOk(uploads, Put(s, p, x'), o)
  {
    hide GroupOk;
  }

  lemma JoinKeepsShared(uploads: seq<Upload>, s: State, x': Proc, p: nat, q: nat)
    requires Safe(uploads, s) && p < |uploads| && s.procs[p].notifier.None? && !s.procs[p].run.isNew && q != p
    requires x'.notifier == Some(q) && x'.fin == s.procs[p].fin && x'.run.group.callbacks == s.procs[p].run.group.callbacks
    ensures RegistryOk(uploads, Put(s, p, x')) && RaisedOk(Put(s, p, x')) && DataOk(uploads, Put(s, p, x'))
  {
    hide ProcOk, TreeOf;
    var s' := Put(s, p, x');
    forall o: nat ensures o < |uploads| ==> Owner(s', o) == Owner(s, o) && s'.procs[o].fin == s.procs[o].fin {
    }
  }

  /** The hash is free: the upload becomes its owner. */
  lemma EmplaceIsSafe(uploads: seq<Upload>, s: State, s': State, p: nat)
    requires Safe(uploads, s) && p < |uploads| && s.procs[p].notifier.None? && !s.procs[p].run.isNew
    requires uploads[p].hash !in s.registry
    requires |s'.procs| == |uploads|
    requires s' == Put(s, p, s'.procs[p]).(registry := s.registry[uploads[p].hash := p], raised := s.raised + {p})
    requires var x' := s'.procs[p];
      && GroupOk(uploads[p].job, x') && x'.notifier == Some(p) && x'.fin.AtGuard? && CheckOf(x') == Some(LookAgain)
      && x'.answer.None? && !x'.run.isNew && x'.replied.None?
    ensures Safe(uploads, s')
  {
    hide RunOk, RegistryOk, RaisedOk, DataOk, ProcOk;
    assert ProcOk(uploads, s, p);
    EmplaceKeepsShared(uploads, s, s', p);
    forall o: nat | o < |uploads| ensures ProcOk(uploads, s', o) {
      assert ProcOk(uploads, s, o);
      EmplaceKeepsProc(uploads, s, s', p, o);
    }
  }

  lemma EmplaceKeepsProc(uploads: seq<Upload>, s: State, s': State, p: nat, o: nat)
    requires |s.procs| == |uploads| == |s'.procs| && p < |uploads| && o < |uploads| && ProcOk(uploads, s, o) && ProcOk(uploads, s, p)
    requires s.procs[p].notifier.None? && !s.procs[p].run.isNew
    requires s' == Put(s, p, s'.procs[p]).(registry := s.registry[uploads[p].hash := p], raised := s.raised + {p})
    requires var x' := s'.procs[p];
      && GroupOk(uploads[p].job, x') && x'.notifier == Some(p) && x'.fin.AtGuard? && CheckOf(x') == Some(LookAgain)
      && x'.answer.None? && !x'.run.isNew && x'.replied.None?
    ensures ProcOk(uploads, s', o)
  {
    hide GroupOk;
    if o == p { assert PhaseOk(s'.procs[p], p) && StoreOk(uploads[p].hash, s', p) && NotifierOk(uploads, s', p); }
  }

  lemma EmplaceKeepsShared(uploads: seq<Upload>, s: State, s': State, p: nat)
    requires |s.procs| == |s'.procs| == |uploads| && p < |uploads|
    requires RegistryOk(uploads, s) && RaisedOk(s) && DataOk(uploads, s)
    requires s.procs[p].notifier.None? && !s.procs[p].run.isNew && uploads[p].hash !in s.registry
    requires s'.procs == s.procs[p := s'.procs[p]] && s'.procs[p].notifier == Some(p) && s'.procs[p].fin.AtGuard?
    requires s'.registry == s.registry[uploads[p].hash := p] && s'.raised == s.raised + {p}
    requires s'.data == s.data && s'.author == s.author
    ensures RegistryOk(uploads, s') && RaisedOk(s') && DataOk(uploads, s')
  {
    forall o: nat ensures o < |uploads| && o != p ==> s'.procs[o] == s.procs[o] {
    }
  }

  lemma EmplacingIsSafe(uploads: seq<Upload>, s: State, p: nat)
    requires Safe(uploads, s) && AllFit(uploads) && p < |uploads|
    requires InCheck(s.procs[p]) && s.procs[p].run.stages[Check].pc.Emplacing? && EventEnabled(uploads, s, CheckStep(p))
    ensures Safe(uploads, CheckNext(uploads, s, p))
  {
    hide RunOk, RegistryOk, RaisedOk, DataOk, Perform;
    var x, job := s.procs[p], uploads[p].job;
    assert ProcOk(uploads, s, p);
    CheckingIsEarly(job, x, p);
    if uploads[p].hash in s.registry {
      DecideEffect(job, x, p, Checking(Waiting));
      var q := s.registry[uploads[p].hash];
      JoinIsSafe(uploads, s, Go(job, x, Waiting).(notifier := Some(q)), p, q);
    } else {
      DecideEffect(job, x, p, Checking(LookAgain));
      EmplaceIsSafe(uploads, s, CheckNext(uploads, s, p), p);
    }
  }

  lemma CheckNextIsSafe(uploads: seq<Upload>, s: State, p: nat)
    requires Safe(uploads, s) && AllFit(uploads) && EventEnabled(uploads, s, CheckStep(p))
    ensures Safe(uploads, CheckNext(uploads, s, p))
  {
    hide Safe, AllFit, Perform;
    var h := uploads[p].hash;
    assert |s.procs| == |uploads|;
    match s.procs[p].run.stages[Check].pc
    case FirstLook => if h in s.data { FoundIsSafe(uploads, s, p); } else { GoIsSafe(uploads, s, p, Checking(Emplacing)); }
    case Emplacing => EmplacingIsSafe(uploads, s, p);
    case Waiting => GoIsSafe(uploads, s, p, Checking(LookAfterWait));
    case LookAfterWait => if h in s.data { FoundIsSafe(uploads, s, p); } else { ThrowIsSafe(uploads, s, p); }
    case LookAgain => if h in s.data { FoundIsSafe(uploads, s, p); } else { GoIsSafe(uploads, s, p, CheckAdds); }
  }

  // ---------------------------------------------------------------- finalize

  /** A group that succeeded has staged a new image, or found the folder in place. */
  lemma SuccessIsStagedOrFound(job: Job, x: Proc, p: nat)
    requires GroupOk(job, x) && PhaseOk(x, p) && Succeeded(x)
    ensures x.run.isNew ==> x.run.staged && x.run.tree == TreeOf(job, |job.sizes|)
    ensures !x.run.isNew ==> x.answer.Some? && !x.run.staged
  {
    if x.run.isNew {
      ScheduleIndependence(job, x.run);
      FinishedMeansAllDone(job, x.run);
      FanoutInvariant.InWorkOf(|job.sizes|, |job.Formats()|);
      assert Load in FanoutInvariant.WorkOf(|job.sizes|, |job.Formats()|);
    } else {
      SuccessEndsCheck(job, x);
    }
  }

  lemma SuccessEndsCheck(job: Job, x: Proc)
    requires GroupOk(job, x) && Succeeded(x)
    ensures Started(x) && x.run.stages[Check].Ended?
  {
    var g := x.run.group;
    TaskGroupTheorems.FinishedIsQuiet(g);
    assert g.tasks.Keys == x.run.stages.Keys;
    assert g.winner.Won? && g.winner.task in x.run.stages;
    FanoutInvariant.CheckIsFirst(x.run, g.winner.task);
    assert FanoutInvariant.PcOk(x.run, Check);
  }

  lemma StagedMeansNew(job: Job, x: Proc)
    requires GroupOk(job, x) && x.run.staged
    ensures x.run.isNew
  {
  }

  /** A step of `finalize` that touches only its own upload, and nothing others look at. */
  lemma FinAloneIsSafe(uploads: seq<Upload>, s: State, x': Proc, p: nat)
    requires Safe(uploads, s) && p < |uploads|
    requires x' == s.procs[p].(fin := x'.fin, replied := x'.replied)
    requires Owns(s, p) <==> Owns(Put(s, p, x'), p)
    requires p in s.raised <==> Owner(s, p) && !x'.fin.AtHook? && !x'.fin.Finalized?
    requires s.procs[p].fin.AtHook? || s.procs[p].fin.Finalized? ==> x'.fin.AtHook? || x'.fin.Finalized?
    requires PhaseOk(x', p) && StoreOk(uploads[p].hash, Put(s, p, x'), p)
    ensures Safe(uploads, Put(s, p, x'))
  {
    hide ProcOk;
    var s' := Put(s, p, x');
    forall o: nat | o < |uploads| ensures ProcOk(uploads, s', o) {
      assert ProcOk(uploads, s, p) && ProcOk(uploads, s, o);
      FinAloneKeepsProc(uploads, s, x', p, o);
    }
    FinAloneKeepsShared(uploads, s, x', p);
  }

  lemma FinAloneKeepsProc(uploads: seq<Upload>, s: State, x': Proc, p: nat, o: nat)
    requires |s.procs| == |uploads| && p < |uploads| && o < |uploads| && ProcOk(uploads, s, o) && ProcOk(uploads, s, p)
    requires x' == s.procs[p].(fin := x'.fin, replied := x'.replied)
    requires s.procs[p].fin.AtHook? || s.procs[p].fin.Finalized? ==> x'.fin.AtHook? || x'.fin.Finalized?
    requires PhaseOk(x', p) && StoreOk(uploads[p].hash, Put(s, p, x'), p)
    ensures ProcOk(uploads, Put(s, p, x'), o)
  {
    hide PhaseOk, RunOk;
  }

  lemma FinAloneKeepsShared(uploads: seq<Upload>, s: State, x': Proc, p: nat)
    requires |s.procs| == |uploads| && p < |uploads| && RegistryOk(uploads, s) && RaisedOk(s) && DataOk(uploads, s)
    requires x' == s.procs[p].(fin := x'.fin, replied := x'.replied)
    requires Owns(s, p) <==> Owns(Put(s, p, x'), p)
    requires p in s.raised <==> Owner(s, p) && !x'.fin.AtHook? && !x'.fin.Finalized?
    ensures RegistryOk(uploads, Put(s, p, x')) && RaisedOk(Put(s, p, x')) && DataOk(uploads, Put(s, p, x'))
  {
    hide TreeOf;
    var s' := Put(s, p, x');
    forall o: nat ensures o < |uploads| ==> Owner(s', o) == Owner(s, o) && Owns(s', o) == Owns(s, o) {
    }
  }

  lemma GuardIsSafe(uploads: seq<Upload>, s: State, p: nat)
    requires Safe(uploads, s) && EventEnabled(uploads, s, FinStep(p)) && s.procs[p].fin.AtGuard?
    ensures Safe(uploads, FinNext(OwnerOnly, uploads, s, p))
  {
    hide RunOk, RegistryOk, DataOk, NotifierOk;
    var x := s.procs[p];
    assert ProcOk(uploads, s, p);
    if Succeeded(x) { SuccessIsStagedOrFound(uploads[p].job, x, p); }
    assert |s.procs| == |uploads| && (p in s.raised <==> Owner(s, p));
    hide RaisedOk, Safe, GroupOk, ProcOk;
    FinAloneIsSafe(uploads, s, FinNext(OwnerOnly, uploads, s, p).procs[p], p);
  }

  lemma HookIsSafe(uploads: seq<Upload>, s: State, p: nat)
    requires Safe(uploads, s) && EventEnabled(uploads, s, FinStep(p)) && s.procs[p].fin.AtHook?
    ensures Safe(uploads, FinNext(OwnerOnly, uploads, s, p))
  {
    hide RunOk, RegistryOk, DataOk, NotifierOk;
    assert ProcOk(uploads, s, p);
    assert |s.procs| == |uploads| && p !in s.raised;
    hide RaisedOk, Safe, GroupOk, ProcOk;
    FinAloneIsSafe(uploads, s, FinNext(OwnerOnly, uploads, s, p).procs[p], p);
  }

  /** Between the re-check and the commit nobody else can have written the folder. */
  lemma CommitFindsNothing(uploads: seq<Upload>, s: State, p: nat)
    requires Safe(uploads, s) && p < |uploads| && s.procs[p].fin.AtCommit?
    ensures s.procs[p].run.staged && s.procs[p].run.isNew && uploads[p].hash !in s.data
    ensures s.procs[p].run.tree == TreeOf(uploads[p].job, |uploads[p].job.sizes|)
  {
    hide RunOk;
    assert ProcOk(uploads, s, p);
    SuccessIsStagedOrFound(uploads[p].job, s.procs[p], p);
    StagedMeansNew(uploads[p].job, s.procs[p]);
  }

  lemma CommitKeepsShared(uploads: seq<Upload>, s: State, s': State, p: nat)
    requires |s.procs| == |uploads| && p < |uploads| && RegistryOk(uploads, s) && RaisedOk(s) && DataOk(uploads, s)
    requires s.procs[p].fin.AtCommit? && Succeeded(s.procs[p]) && s.procs[p].run.isNew
    requires s.procs[p].run.tree == TreeOf(uploads[p].job, |uploads[p].job.sizes|)
    requires var h := uploads[p].hash;
      s' == Put(s, p, s.procs[p].(fin := AtErase)).(data := s.data[h := s.procs[p].run.tree], author := s.author[h := p])
    ensures RegistryOk(uploads, s') && RaisedOk(s') && DataOk(uploads, s')
  {
    forall o: nat ensures o < |uploads| ==>
      Owner(s', o) == Owner(s, o) && Owns(s', o) == Owns(s, o)
      && s'.procs[o].fin.AtHook? == s.procs[o].fin.AtHook? && s'.procs[o].fin.Finalized? == s.procs[o].fin.Finalized?
    {
    }
    CommitKeepsData(uploads, s, s', p);
    hide DataOk, Owner, Owns;
  }

  lemma CommitKeepsData(uploads: seq<Upload>, s: State, s': State, p: nat)
    requires |s.procs| == |uploads| && p < |uploads| && DataOk(uploads, s)
    requires Succeeded(s.procs[p]) && s.procs[p].run.isNew
    requires s.procs[p].run.tree == TreeOf(uploads[p].job, |uploads[p].job.sizes|)
    requires var h := uploads[p].hash;
      s' == Put(s, p, s.procs[p].(fin := AtErase)).(data := s.data[h := s.procs[p].run.tree], author := s.author[h := p])
    ensures DataOk(uploads, s')
  {
    hide TreeOf;
  }

  lemma CommitKeepsProc(uploads: seq<Upload>, s: State, s': State, p: nat, o: nat)
    requires |s.procs| == |uploads| && p < |uploads| && o < |uploads| && RegistryOk(uploads, s)
    requires s.procs[p].fin.AtCommit? && Owns(s, p) && ProcOk(uploads, s, o)
    requires var h := uploads[p].hash;
      && h !in s.data
      && s' == Put(s, p, s.procs[p].(fin := AtErase)).(data := s.data[h := s.procs[p].run.tree], author := s.author[h := p])
    ensures ProcOk(uploads, s', o)
  {
    hide RunOk;
    assert o != p && uploads[o].hash == uploads[p].hash ==> !Owns(s, o);
    hide RegistryOk;
  }

  lemma CommitIsSafe(uploads: seq<Upload>, s: State, p: nat)
    requires Safe(uploads, s) && EventEnabled(uploads, s, FinStep(p)) && s.procs[p].fin.AtCommit?
    ensures Safe(uploads, FinNext(OwnerOnly, uploads, s, p))
  {
    hide RunOk, RegistryOk, RaisedOk, DataOk, StoreOk, NotifierOk;
    var s' := FinNext(OwnerOnly, uploads, s, p);
    assert ProcOk(uploads, s, p);
    CommitFindsNothing(uploads, s, p);
    CommitKeepsShared(uploads, s, s', p);
    hide ProcOk, PhaseOk;
    forall o: nat | o < |uploads| ensures ProcOk(uploads, s', o) {
      CommitKeepsProc(uploads, s, s', p, o);
    }
  }

  lemma EraseKeepsShared(uploads: seq<Upload>, s: State, s': State, p: nat)
    requires |s.procs| == |uploads| && p < |uploads| && RegistryOk(uploads, s) && RaisedOk(s) && DataOk(uploads, s)
    requires s.procs[p].fin.AtErase? && Owner(s, p)
    requires s' == Put(s, p, s.procs[p].(fin := AtNotify)).(registry := s.registry - {uploads[p].hash})
    ensures RegistryOk(uploads, s') && RaisedOk(s') && DataOk(uploads, s')
  {
    assert Owns(s, p);
    forall o: nat ensures o < |uploads| ==>
      Owner(s', o) == Owner(s, o) && Owns(s', o) == (o != p && Owns(s, o))
      && s'.procs[o].fin.AtHook? == s.procs[o].fin.AtHook? && s'.procs[o].fin.Finalized? == s.procs[o].fin.Finalized?
      && s'.procs[o].run == s.procs[o].run
    {
    }
    hide Owner, Owns, TreeOf;
  }

  lemma EraseIsSafe(uploads: seq<Upload>, s: State, p: nat)
    requires Safe(uploads, s) && EventEnabled(uploads, s, FinStep(p)) && s.procs[p].fin.AtErase?
    ensures Safe(uploads, FinNext(OwnerOnly, uploads, s, p))
  {
    hide RunOk, RegistryOk, RaisedOk, DataOk;
    var s' := FinNext(OwnerOnly, uploads, s, p);
    assert ProcOk(uploads, s, p);
    EraseKeepsShared(uploads, s, s', p);
    forall o: nat | o < |uploads| ensures ProcOk(uploads, s', o) {
      assert ProcOk(uploads, s, o);
    }
  }

  lemma NotifyKeepsShared(uploads: seq<Upload>, s: State, s': State, p: nat)
    requires |s.procs| == |uploads| && p < |uploads| && RegistryOk(uploads, s) && RaisedOk(s) && DataOk(uploads, s)
    requires s.procs[p].fin.AtNotify? && Owner(s, p)
    requires s' == Put(s, p, s.procs[p].(fin := AtHook)).(raised := s.raised - {p})
    ensures RegistryOk(uploads, s') && RaisedOk(s') && DataOk(uploads, s')
  {
    forall o: nat ensures o < |uploads| ==> Owner(s', o) == Owner(s, o) && Owns(s', o) == Owns(s, o) {
    }
  }

  lemma NotifyIsSafe(uploads: seq<Upload>, s: State, p: nat)
    requires Safe(uploads, s) && EventEnabled(uploads, s, FinStep(p)) && s.procs[p].fin.AtNotify?
    ensures Safe(uploads, FinNext(OwnerOnly, uploads, s, p))
  {
    hide RunOk, RegistryOk, RaisedOk, DataOk;
    var s' := FinNext(OwnerOnly, uploads, s, p);
    assert ProcOk(uploads, s, p);
    NotifyKeepsShared(uploads, s, s', p);
    forall o: nat | o < |uploads| ensures ProcOk(uploads, s', o) {
      assert ProcOk(uploads, s, o);
    }
  }

  /** Every step of every upload keeps the invariant. */
  lemma NextIsSafe(uploads: seq<Upload>, s: State, e: Event)
    requires Safe(uploads, s) && AllFit(uploads) && EventEnabled(uploads, s, e)
    ensures Safe(uploads, Next(OwnerOnly, uploads, s, e))
  {
    hide Safe, AllFit, FinNext, CheckNext, Perform;
    match e
    case Work(p, act) => WorkIsSafe(uploads, s, p, act);
    case CheckStep(p) => CheckNextIsSafe(uploads, s, p);
    case CheckFails(p) => ThrowIsSafe(uploads, s, p);
    case FinStep(p) =>
      match s.procs[p].fin
      case AtGuard => GuardIsSafe(uploads, s, p);
      case AtCommit => CommitIsSafe(uploads, s, p);
      case AtErase => EraseIsSafe(uploads, s, p);
      case AtNotify => NotifyIsSafe(uploads, s, p);
      case AtHook => HookIsSafe(uploads, s, p);
  }
}
