/** What every step of an upload's tasks keeps: which tasks exist, how far each has come, and
    what `dimensions` and the staged folder hold because of it. */
module FanoutInvariant {
  import opened TaskGroups
  import TaskGroupInvariant
  import opened Fanout

  // ---------------------------------------------------------------- predicates

  predicate KindOk(w: Work, s: Stage) {
    match w
    case Check => s.Checking? || s.CheckAdds? || s.Ended?
    case Load => s.LoadStages? || s.LoadDetects? || s.LoadWrites? || s.LoadPushes? || s.LoadAdds? || s.Ended?
    case Resize(i) => s.ResizeScales? || s.ResizeMakesFolder? || s.ResizeLists? || s.ResizeAdds? || s.Ended?
    case Save(i, j) => s.SaveEncodes? || s.SaveWrites? || s.Ended?
  }

  /** The closure has returned. */
  predicate HasReturned(pc: Pc<Work>) {
    pc.Returned? || pc.Zeroing? || pc.Claiming? || pc.Announcing? || pc == Done(Ok)
  }

  /** The closure has not been entered. */
  predicate NotEntered(pc: Pc<Work>) {
    pc.Enqueuing? || pc.Queued? || pc.Starting?
  }

  predicate PcOk(r: Run, w: Work)
    requires w in r.group.tasks && w in r.stages
  {
    var pc := r.group.tasks[w];
    && (pc.Pushing? ==> NextChild(r, w) == Some(pc.child))
    && (pc.Adding? ==> NextChild(r, w).Some?)
    && (HasReturned(pc) ==> r.stages[w].Ended?)
    && (NotEntered(pc) ==> r.stages[w] == StartOf(w))
  }

  ghost predicate ShapeOk(r: Run) {
    && r.stages.Keys == r.group.tasks.Keys
    && (forall w | w in r.stages :: KindOk(w, r.stages[w]))
    && (forall w | w in r.stages :: PcOk(r, w))
    && (r.isNew ==> Check in r.stages && !r.stages[Check].Checking?)
    && (Check in r.stages && r.stages[Check].CheckAdds? ==> r.isNew)
    && (Load in r.stages ==> r.isNew)
  }

  function ParentOf(w: Work): Work {
    match w
    case Check => Check
    case Load => Check
    case Resize(i) => Load
    case Save(i, j) => Resize(i)
  }

  /** A body at stage `s` is past the addition of `c`. */
  predicate Passed(s: Stage, c: Work) {
    s.Ended?
    || match c
       case Check => false
       case Load => false
       case Resize(i) => s.LoadAdds? && i < s.next
       case Save(i, j) => s.ResizeAdds? && j < s.next
  }

  /** Every task is there because its parent's body added it, and its indices exist. */
  predicate ParentOk(r: Run, c: Work) {
    InRange(r, c)
    && (!c.Check? ==>
         var p := ParentOf(c);
         p in r.stages && (Passed(r.stages[p], c) || At(r.group, p, Pushing(c))))
  }

  ghost predicate ParentsOk(r: Run) {
    forall c | c in r.stages :: ParentOk(r, c)
  }

  /** The parent's body is past the addition of `c`, so without an error `c` has been added. */
  predicate Owed(r: Run, c: Work) {
    && !c.Check? && InRange(r, c) && (c.Load? ==> r.isNew)
    && ParentOf(c) in r.stages && Passed(r.stages[ParentOf(c)], c)
  }

  ghost predicate ChildrenOk(r: Run) {
    !r.group.state.DoneError? ==> forall c :: Owed(r, c) ==> c in r.stages
  }

  function Pushed(job: Job, r: Run): nat {
    if Load !in r.stages then 0 else
    match r.stages[Load]
    case LoadStages => 0
    case LoadDetects => 0
    case LoadWrites => 0
    case LoadPushes(k) => k
    case _ => |job.sizes|
  }

  function StageOf(r: Run, w: Work): Stage {
    if w in r.stages then r.stages[w] else StartOf(w)
  }

  function Height(job: Job, r: Run, i: nat): nat
    requires i < |job.sizes|
  {
    if StageOf(r, Resize(i)).ResizeScales? then 0 else job.thumbnail(job.sizes[i])
  }

  function Listed(job: Job, s: Stage): nat {
    match s
    case ResizeScales => 0
    case ResizeMakesFolder => 0
    case ResizeLists(k) => k
    case _ => |job.Formats()|
  }

  predicate DimOk(job: Job, r: Run, i: nat) {
    && i < |r.dims| && i < |job.sizes|
    && var n := Listed(job, StageOf(r, Resize(i)));
       n <= |job.Formats()| && r.dims[i] == Dim(job.sizes[i], Height(job, r, i), job.Formats()[..n])
  }

  ghost predicate DimsOk(job: Job, r: Run) {
    && |r.dims| == Pushed(job, r) <= |job.sizes|
    && (forall i: nat | i < |r.dims| :: DimOk(job, r, i))
    && r.original == (if StageOf(r, Load).LoadStages? || StageOf(r, Load).LoadDetects?
                      then job.extension else job.Format())
    && (r.staged <==> !StageOf(r, Load).LoadStages?)
  }

  predicate HasWritten(s: Stage) {
    s.LoadPushes? || s.LoadAdds? || s.Ended?
  }

  predicate HasFolder(s: Stage) {
    s.ResizeLists? || s.ResizeAdds? || s.Ended?
  }

  /** What the progress of one task says about the staged folder. */
  predicate WroteOk(job: Job, r: Run, w: Work)
    requires w in r.stages
  {
    var s := r.stages[w];
    match w
    case Check => true
    case Load => HasWritten(s) ==> Original(job.Format()) in r.tree
    case Resize(i) =>
      HasFolder(s) ==> i < |job.sizes| && Sized(job.sizes[i], job.thumbnail(job.sizes[i])) in r.tree
    case Save(i, j) =>
      && i < |job.sizes| && j < |job.Formats()|
      && (s.SaveWrites? ==> s.content == job.encode(job.sizes[i], job.Formats()[j]))
      && (s.Ended? ==> Variant(job.sizes[i], job.thumbnail(job.sizes[i]), job.Formats()[j]) in r.tree)
  }

  ghost predicate TreeOk(job: Job, r: Run) {
    && (forall p | p in r.tree :: Expects(job, p) && r.tree[p] == NodeAt(job, p))
    && (forall w | w in r.stages :: WroteOk(job, r, w))
  }

  /** The invariant of the bodies; `TaskGroupInvariant.Inv` is the one of the group. */
  ghost predicate BodiesOk(job: Job, r: Run) {
    ShapeOk(r) && ParentsOk(r) && ChildrenOk(r) && DimsOk(job, r) && TreeOk(job, r)
  }

  /** Where there is any task, there is the check. */
  lemma CheckIsFirst(r: Run, w: Work)
    requires ParentsOk(r) && w in r.stages
    ensures Check in r.stages
  {
    assert ParentOk(r, w);
    match w
    case Check =>
    case Load =>
    case Resize(i) => assert ParentOk(r, Load);
    case Save(i, j) => assert ParentOk(r, Resize(i)) && ParentOk(r, Load);
  }

  // ---------------------------------------------------------------- steps of the group alone

  /** The group moved without handing over, or forgetting, a task or an error. */
  ghost predicate Settled(g: Group<Work>, g': Group<Work>) {
    && g'.tasks.Keys == g.tasks.Keys
    && (g.state.DoneError? ==> g'.state.DoneError?)
    && (forall w | w in g.tasks :: g.tasks[w].Pushing? || g'.tasks[w].Pushing? ==> g'.tasks[w] == g.tasks[w])
  }

  /** No body entered `add_task`, returned or was forgotten in it. */
  predicate DriftsTo(pc: Pc<Work>, pc': Pc<Work>) {
    (pc'.Adding? ==> pc.Adding?) && (HasReturned(pc') ==> HasReturned(pc)) && (NotEntered(pc') ==> NotEntered(pc))
  }

  ghost predicate Drifted(g: Group<Work>, g': Group<Work>) {
    Settled(g, g') && forall w | w in g.tasks :: DriftsTo(g.tasks[w], g'.tasks[w])
  }

  lemma SettledKeepsLinks(r: Run, g': Group<Work>)
    requires ParentsOk(r) && ChildrenOk(r) && Settled(r.group, g')
    ensures ParentsOk(r.(group := g')) && ChildrenOk(r.(group := g'))
  {
    var r' := r.(group := g');
    forall c | c in r'.stages ensures ParentOk(r', c) {
      assert ParentOk(r, c);
    }
    forall c | Owed(r', c) && !g'.state.DoneError? ensures c in r'.stages {
      assert Owed(r, c);
    }
  }

  lemma GroupKeepsDims(job: Job, r: Run, g': Group<Work>)
    requires DimsOk(job, r)
    ensures DimsOk(job, r.(group := g'))
  {
    var r' := r.(group := g');
    forall i: nat | i < |r'.dims| ensures DimOk(job, r', i) {
      assert DimOk(job, r, i);
    }
  }

  lemma GroupKeepsTree(job: Job, r: Run, g': Group<Work>)
    requires TreeOk(job, r)
    ensures TreeOk(job, r.(group := g'))
  {
    var r' := r.(group := g');
    forall w | w in r'.stages ensures WroteOk(job, r', w) {
      assert WroteOk(job, r, w);
    }
  }

  lemma SettledKeeps(job: Job, r: Run, g': Group<Work>)
    requires BodiesOk(job, r) && Settled(r.group, g') && ShapeOk(r.(group := g'))
    ensures BodiesOk(job, r.(group := g'))
  {
    SettledKeepsLinks(r, g');
    GroupKeepsDims(job, r, g');
    GroupKeepsTree(job, r, g');
  }

  lemma DriftedKeepsShape(r: Run, g': Group<Work>)
    requires ShapeOk(r) && Drifted(r.group, g')
    ensures ShapeOk(r.(group := g'))
  {
    var r' := r.(group := g');
    forall w | w in r'.stages ensures PcOk(r', w) {
      assert PcOk(r, w) && DriftsTo(r.group.tasks[w], g'.tasks[w]);
      assert NextChild(r', w) == NextChild(r, w);
    }
  }

  lemma WrapperDrifts(g: Group<Work>, w: Work)
    requires Enabled(g, Wrapper(w))
    ensures Drifted(g, WrapperStep(g, w))
  {
    TaskGroupInvariant.WrapperShape(g, w);
    var g' := WrapperStep(g, w);
    assert DriftsTo(g.tasks[w], g'.tasks[w]) by { WrapperDriftsTo(g, w); }
    assert g'.tasks == g.tasks[w := g'.tasks[w]];
    assert g.state.DoneError? ==> g'.state.DoneError?;
    assert !TaskGroupInvariant.Links(g.tasks[w]);
  }

  lemma WrapperDriftsTo(g: Group<Work>, w: Work)
    requires Enabled(g, Wrapper(w))
    ensures w in WrapperStep(g, w).tasks && DriftsTo(g.tasks[w], WrapperStep(g, w).tasks[w])
  {
    match g.tasks[w]
    case Starting =>
    case LateDecrement =>
    case SkipDecrement =>
    case Caught =>
    case CaughtDecrement(exchanged) =>
    case Reporting(exchanged) =>
    case Returned =>
    case Zeroing =>
    case Claiming =>
    case Announcing =>
  }

  lemma InnerDrifts(g: Group<Work>, a: Action<Work>)
    requires TaskGroupInvariant.Inv(g) && IsInner(a) && Enabled(g, a) && !a.CallerFetch?
    ensures Drifted(g, Step(g, a))
  {
    hide TaskGroupInvariant.Inv, Drifted, WrapperStep;
    match a
    case CallerLoad => SameTasksDrift(g, Step(g, a));
    case CallerPush => CallerPushDrifts(g);
    case Cancel => SameTasksDrift(g, Step(g, a));
    case CancelCallback => SameTasksDrift(g, Step(g, a));
    case Pop(w) => PopDrifts(g, w);
    case Wrapper(w) => WrapperDrifts(g, w);
  }

  lemma SameTasksDrift(g: Group<Work>, g': Group<Work>)
    requires g'.tasks == g.tasks && (g.state.DoneError? ==> g'.state.DoneError?)
    ensures Drifted(g, g')
  {
  }

  lemma CallerPushDrifts(g: Group<Work>)
    requires TaskGroupInvariant.Inv(g) && Enabled(g, CallerPush)
    ensures Drifted(g, Step(g, CallerPush))
  {
    TaskGroupInvariant.PushedChild(g, CallerPush);
    hide TaskGroupInvariant.Inv;
  }

  lemma PopDrifts(g: Group<Work>, w: Work)
    requires Enabled(g, Pop(w))
    ensures Drifted(g, Step(g, Pop(w)))
  {
  }

  lemma ThrowDrifts(g: Group<Work>, w: Work)
    requires Enabled(g, Throw(w))
    ensures Drifted(g, Step(g, Throw(w)))
  {
  }

  lemma InnerKeeps(job: Job, r: Run, a: Action<Work>)
    requires TaskGroupInvariant.Inv(r.group) && BodiesOk(job, r) && ActEnabled(job, r, Inner(a)) && !a.CallerFetch?
    ensures BodiesOk(job, Perform(job, r, Inner(a)))
  {
    InnerDrifts(r.group, a);
    hide TaskGroupInvariant.Inv;
    DriftedKeepsShape(r, Step(r.group, a));
    SettledKeeps(job, r, Step(r.group, a));
  }

  lemma FailKeeps(job: Job, r: Run, w: Work)
    requires BodiesOk(job, r) && ActEnabled(job, r, Fail(w))
    ensures BodiesOk(job, Perform(job, r, Fail(w)))
  {
    ThrowDrifts(r.group, w);
    DriftedKeepsShape(r, Step(r.group, Throw(w)));
    SettledKeeps(job, r, Step(r.group, Throw(w)));
  }

  // ---------------------------------------------------------------- operations of a body

  /** Entries are only added to `dimensions` and to its lists of formats. */
  ghost predicate Grew(dims: seq<Dim>, dims': seq<Dim>) {
    |dims| <= |dims'| && forall i: nat | i < |dims| :: |dims[i].formats| <= |dims'[i].formats|
  }

  /** The body of `w` moved on, alone. */
  ghost predicate Advanced(r: Run, r': Run, w: Work) {
    && r'.group == r.group && r'.isNew == r.isNew && Grew(r.dims, r'.dims)
    && At(r.group, w, Body) && w in r.stages && w in r'.stages
    && r'.stages == r.stages[w := r'.stages[w]]
  }

  lemma AdvancedKeepsShape(r: Run, r': Run, w: Work)
    requires ShapeOk(r) && Advanced(r, r', w) && KindOk(w, r'.stages[w])
    requires !r'.stages[w].Checking? && !r'.stages[w].CheckAdds?
    ensures ShapeOk(r')
  {
    forall u | u in r'.stages ensures PcOk(r', u) {
      assert PcOk(r, u);
    }
  }

  lemma AdvancedKeepsParents(r: Run, r': Run, w: Work)
    requires ParentsOk(r) && Advanced(r, r', w)
    requires forall c :: ParentOf(c) == w && Passed(r.stages[w], c) ==> Passed(r'.stages[w], c)
    ensures ParentsOk(r')
  {
    forall c | c in r'.stages ensures ParentOk(r', c) {
      assert ParentOk(r, c);
    }
  }

  lemma AdvancedKeepsChildren(r: Run, r': Run, w: Work)
    requires ChildrenOk(r) && Advanced(r, r', w)
    requires forall c :: Owed(r', c) ==> Owed(r, c)
    ensures ChildrenOk(r')
  {
    forall c | Owed(r', c) && !r'.group.state.DoneError? ensures c in r'.stages {
      assert Owed(r, c);
    }
  }

  lemma AdvancedKeepsLinks(r: Run, r': Run, w: Work)
    requires ShapeOk(r) && ParentsOk(r) && ChildrenOk(r) && Advanced(r, r', w) && KindOk(w, r'.stages[w])
    requires !r'.stages[w].Checking? && !r'.stages[w].CheckAdds?
    requires forall c :: ParentOf(c) == w && Passed(r.stages[w], c) ==> Passed(r'.stages[w], c)
    requires forall c :: Owed(r', c) ==> Owed(r, c)
    ensures ShapeOk(r') && ParentsOk(r') && ChildrenOk(r')
  {
    hide ShapeOk, ParentsOk, ChildrenOk, Passed, Owed, KindOk, ParentOf;
    AdvancedKeepsShape(r, r', w);
    AdvancedKeepsParents(r, r', w);
    AdvancedKeepsChildren(r, r', w);
  }

  lemma LoadOpAdvances(job: Job, r: Run)
    requires At(r.group, Load, Body) && Load in r.stages && KindOk(Load, r.stages[Load])
    requires NextChild(r, Load).None? && !r.stages[Load].Ended?
    ensures var r' := BodyOp(job, r, Load);
      && Advanced(r, r', Load) && KindOk(Load, r'.stages[Load])
      && (r'.stages[Load].Ended? ==> r.stages[Load].LoadAdds? && |r.dims| <= r.stages[Load].next && r'.dims == r.dims)
      && (!r'.stages[Load].Ended? ==> !r.stages[Load].LoadAdds?)
      && (r'.stages[Load].LoadAdds? ==> r'.stages[Load].next == 0)
  {
    match r.stages[Load]
    case LoadStages =>
    case LoadDetects =>
    case LoadWrites =>
    case LoadPushes(k) =>
    case LoadAdds(k) =>
  }

  lemma LoadOpOwes(r: Run, r': Run)
    requires ParentsOk(r) && Load in r.stages && Load in r'.stages
    requires r'.stages == r.stages[Load := r'.stages[Load]] && r'.isNew == r.isNew && r.dims <= r'.dims
    requires r'.stages[Load].Ended? ==> r.stages[Load].LoadAdds? && |r.dims| <= r.stages[Load].next && r'.dims == r.dims
    requires r'.stages[Load].LoadAdds? ==> r'.stages[Load].next == 0
    ensures forall c :: Owed(r', c) ==> Owed(r, c)
  {
    forall c | Owed(r', c) ensures Owed(r, c) {
      match c
      case Load =>
      case Resize(i) =>
      case Save(i, j) => assert ParentOk(r, Resize(i));
    }
  }

  lemma LoadOpKeepsLinks(job: Job, r: Run)
    requires ShapeOk(r) && ParentsOk(r) && ChildrenOk(r)
    requires At(r.group, Load, Body) && Load in r.stages && NextChild(r, Load).None? && !r.stages[Load].Ended?
    ensures var r' := BodyOp(job, r, Load); ShapeOk(r') && ParentsOk(r') && ChildrenOk(r')
  {
    assert KindOk(Load, r.stages[Load]);
    LoadOpAdvances(job, r);
    var r' := BodyOp(job, r, Load);
    LoadOpOwes(r, r');
    hide ShapeOk, ParentsOk, ChildrenOk, BodyOp, Owed;
    AdvancedKeepsLinks(r, r', Load);
  }

  lemma ResizeOpAdvances(job: Job, r: Run, i: nat)
    requires var w := Resize(i);
      At(r.group, w, Body) && w in r.stages && InRange(r, w) && KindOk(w, r.stages[w])
      && NextChild(r, w).None? && !r.stages[w].Ended?
    ensures var w, r' := Resize(i), BodyOp(job, r, Resize(i));
      && Advanced(r, r', w) && KindOk(w, r'.stages[w])
      && |r'.dims| == |r.dims| && (forall n: nat | n < |r.dims| && n != i :: r'.dims[n] == r.dims[n])
      && (r'.stages[w].Ended? ==> r.stages[w].ResizeAdds? && |r.dims[i].formats| <= r.stages[w].next && r'.dims == r.dims)
      && (!r'.stages[w].Ended? ==> !r.stages[w].ResizeAdds?)
      && (r'.stages[w].ResizeAdds? ==> r'.stages[w].next == 0)
  {
    match r.stages[Resize(i)]
    case ResizeScales =>
    case ResizeMakesFolder =>
    case ResizeLists(k) =>
    case ResizeAdds(k) =>
  }

  lemma ResizeOpOwes(r: Run, r': Run, i: nat)
    requires Resize(i) in r.stages && Resize(i) in r'.stages && i < |r.dims|
    requires r'.stages == r.stages[Resize(i) := r'.stages[Resize(i)]] && r'.isNew == r.isNew
    requires |r'.dims| == |r.dims| && (forall n: nat | n < |r.dims| && n != i :: r'.dims[n] == r.dims[n])
    requires var s, s' := r.stages[Resize(i)], r'.stages[Resize(i)];
      && (s'.Ended? ==> s.ResizeAdds? && |r.dims[i].formats| <= s.next && r'.dims == r.dims)
      && (s'.ResizeAdds? ==> s'.next == 0)
    ensures forall c :: Owed(r', c) ==> Owed(r, c)
  {
    forall c | Owed(r', c) ensures Owed(r, c) {
      match c
      case Load =>
      case Resize(n) =>
      case Save(n, j) =>
    }
  }

  lemma ResizeOpKeepsLinks(job: Job, r: Run, i: nat)
    requires ShapeOk(r) && ParentsOk(r) && ChildrenOk(r)
    requires var w := Resize(i);
      At(r.group, w, Body) && w in r.stages && InRange(r, w) && NextChild(r, w).None? && !r.stages[w].Ended?
    ensures var r' := BodyOp(job, r, Resize(i)); ShapeOk(r') && ParentsOk(r') && ChildrenOk(r')
  {
    assert KindOk(Resize(i), r.stages[Resize(i)]);
    ResizeOpAdvances(job, r, i);
    var r' := BodyOp(job, r, Resize(i));
    ResizeOpOwes(r, r', i);
    hide ShapeOk, ParentsOk, ChildrenOk, BodyOp, Owed;
    AdvancedKeepsLinks(r, r', Resize(i));
  }

  lemma SaveOpAdvances(job: Job, r: Run, i: nat, j: nat)
    requires var w := Save(i, j);
      At(r.group, w, Body) && w in r.stages && InRange(r, w) && KindOk(w, r.stages[w]) && !r.stages[w].Ended?
    ensures var w, r' := Save(i, j), BodyOp(job, r, Save(i, j));
      || r' == r.(group := Step(r.group, Throw(w)))
      || (Advanced(r, r', w) && KindOk(w, r'.stages[w]) && r'.dims == r.dims)
  {
    match r.stages[Save(i, j)]
    case SaveEncodes =>
    case SaveWrites(content) =>
  }

  lemma SaveOpKeepsLinks(job: Job, r: Run, i: nat, j: nat)
    requires ShapeOk(r) && ParentsOk(r) && ChildrenOk(r)
    requires var w := Save(i, j); At(r.group, w, Body) && w in r.stages && InRange(r, w) && !r.stages[w].Ended?
    ensures var r' := BodyOp(job, r, Save(i, j)); ShapeOk(r') && ParentsOk(r') && ChildrenOk(r')
  {
    var w := Save(i, j);
    assert KindOk(w, r.stages[w]);
    SaveOpAdvances(job, r, i, j);
    var r' := BodyOp(job, r, w);
    hide BodyOp, ShapeOk, ParentsOk, ChildrenOk;
    if r' == r.(group := Step(r.group, Throw(w))) {
      ThrowDrifts(r.group, w);
      DriftedKeepsShape(r, r'.group);
      SettledKeepsLinks(r, r'.group);
    } else {
      SaveOpOwes(r, r', w);
      AdvancedKeepsLinks(r, r', w);
    }
  }

  lemma SaveOpOwes(r: Run, r': Run, w: Work)
    requires w.Save? && Advanced(r, r', w) && r'.dims == r.dims
    ensures forall c :: Owed(r', c) ==> Owed(r, c)
    ensures forall c :: Passed(r.stages[w], c) && ParentOf(c) == w ==> Passed(r'.stages[w], c)
  {
    forall c ensures ParentOf(c) != w {
    }
  }

  /** A change to tasks other than `load_image` and the resizes leaves `dimensions` alone. */
  lemma OtherKeepsDims(job: Job, r: Run, r': Run)
    requires DimsOk(job, r) && r'.dims == r.dims && r'.original == r.original && r'.staged == r.staged
    requires StageOf(r', Load) == StageOf(r, Load) && Pushed(job, r') == Pushed(job, r)
    requires forall i: nat :: StageOf(r', Resize(i)) == StageOf(r, Resize(i))
    ensures DimsOk(job, r')
  {
    forall i: nat | i < |r'.dims| ensures DimOk(job, r', i) {
      assert DimOk(job, r, i);
    }
  }

  lemma LoadOpKeepsDims(job: Job, r: Run)
    requires ShapeOk(r) && ParentsOk(r) && DimsOk(job, r)
    requires At(r.group, Load, Body) && Load in r.stages && NextChild(r, Load).None? && !r.stages[Load].Ended?
    ensures DimsOk(job, BodyOp(job, r, Load))
  {
    assert KindOk(Load, r.stages[Load]);
    var r' := BodyOp(job, r, Load);
    LoadOpPushes(job, r);
    LoadOpAdvances(job, r);
    assert r.dims <= r'.dims && |r'.dims| <= |r.dims| + 1;
    forall i: nat | i < |r'.dims| ensures DimOk(job, r', i) {
      assert StageOf(r', Resize(i)) == StageOf(r, Resize(i));
      assert Resize(i) in r.stages ==> ParentOk(r, Resize(i));
      if i < |r.dims| {
        assert DimOk(job, r, i);
      }
    }
  }

  lemma LoadOpPushes(job: Job, r: Run)
    requires DimsOk(job, r) && Load in r.stages && KindOk(Load, r.stages[Load])
    requires At(r.group, Load, Body) && NextChild(r, Load).None? && !r.stages[Load].Ended?
    ensures var r' := BodyOp(job, r, Load);
      && |r'.dims| == Pushed(job, r') <= |job.sizes|
      && r'.original == (if StageOf(r', Load).LoadStages? || StageOf(r', Load).LoadDetects?
                         then job.extension else job.Format())
      && (r'.staged <==> !StageOf(r', Load).LoadStages?)
      && r.dims <= r'.dims
      && (r'.dims == r.dims || r'.dims == r.dims + [Dim(job.sizes[|r.dims|], 0, [])])
  {
    match r.stages[Load]
    case LoadStages =>
    case LoadDetects =>
    case LoadWrites =>
    case LoadPushes(k) =>
    case LoadAdds(k) =>
  }

  lemma LoadOpKeepsTree(job: Job, r: Run)
    requires ShapeOk(r) && DimsOk(job, r) && TreeOk(job, r)
    requires At(r.group, Load, Body) && Load in r.stages && NextChild(r, Load).None? && !r.stages[Load].Ended?
    ensures TreeOk(job, BodyOp(job, r, Load))
  {
    assert KindOk(Load, r.stages[Load]);
    var r' := BodyOp(job, r, Load);
    LoadOpWrites(job, r);
    forall w | w in r'.stages ensures WroteOk(job, r', w) {
      assert WroteOk(job, r, w);
    }
  }

  lemma LoadOpWrites(job: Job, r: Run)
    requires DimsOk(job, r) && Load in r.stages && KindOk(Load, r.stages[Load])
    requires At(r.group, Load, Body) && NextChild(r, Load).None? && !r.stages[Load].Ended?
    ensures var r' := BodyOp(job, r, Load);
      && r'.stages.Keys == r.stages.Keys && (forall w | w in r.stages && w != Load :: r'.stages[w] == r.stages[w])
      && (r'.tree == r.tree || r'.tree == r.tree[Original(job.Format()) := File(job.data)])
      && (HasWritten(r'.stages[Load]) && !HasWritten(r.stages[Load]) ==> Original(job.Format()) in r'.tree)
  {
    match r.stages[Load]
    case LoadStages =>
    case LoadDetects =>
    case LoadWrites =>
    case LoadPushes(k) =>
    case LoadAdds(k) =>
  }

  lemma ResizeOpKeepsDims(job: Job, r: Run, i: nat)
    requires ShapeOk(r) && ParentsOk(r) && DimsOk(job, r)
    requires var w := Resize(i);
      At(r.group, w, Body) && w in r.stages && InRange(r, w) && NextChild(r, w).None? && !r.stages[w].Ended?
    ensures DimsOk(job, BodyOp(job, r, Resize(i)))
  {
    assert KindOk(Resize(i), r.stages[Resize(i)]);
    var r' := BodyOp(job, r, Resize(i));
    ResizeOpAdvances(job, r, i);
    LoadIsPastDetecting(r, i);
    assert DimOk(job, r, i);
    ResizeOpDim(job, r, i);
    assert r'.original == r.original && r'.staged == r.staged && StageOf(r', Load) == StageOf(r, Load);
    hide BodyOp;
    forall n: nat | n < |r'.dims| ensures DimOk(job, r', n) {
      if n != i {
        assert DimOk(job, r, n);
        assert StageOf(r', Resize(n)) == StageOf(r, Resize(n));
      }
    }
  }

  lemma LoadIsPastDetecting(r: Run, i: nat)
    requires ShapeOk(r) && ParentsOk(r) && Resize(i) in r.stages
    ensures Load in r.stages && (r.stages[Load].LoadAdds? || r.stages[Load].Ended?)
  {
    assert ParentOk(r, Resize(i));
    if !Passed(r.stages[Load], Resize(i)) { assert PcOk(r, Load); }
  }

  lemma ResizeOpDim(job: Job, r: Run, i: nat)
    requires var w := Resize(i);
      At(r.group, w, Body) && w in r.stages && InRange(r, w) && NextChild(r, w).None? && !r.stages[w].Ended?
    requires KindOk(Resize(i), r.stages[Resize(i)]) && DimOk(job, r, i) && r.original == job.Format()
    ensures var r' := BodyOp(job, r, Resize(i)); DimOk(job, r', i) && r'.original == r.original && r'.staged == r.staged
  {
    match r.stages[Resize(i)]
    case ResizeScales =>
    case ResizeMakesFolder =>
    case ResizeLists(k) =>
    case ResizeAdds(k) =>
  }

  lemma ResizeOpKeepsTree(job: Job, r: Run, i: nat)
    requires ShapeOk(r) && DimsOk(job, r) && TreeOk(job, r)
    requires var w := Resize(i);
      At(r.group, w, Body) && w in r.stages && InRange(r, w) && NextChild(r, w).None? && !r.stages[w].Ended?
    ensures TreeOk(job, BodyOp(job, r, Resize(i)))
  {
    var r' := BodyOp(job, r, Resize(i));
    assert KindOk(Resize(i), r.stages[Resize(i)]) && DimOk(job, r, i);
    ResizeOpWrites(job, r, i);
    hide BodyOp;
    forall w | w in r'.stages ensures WroteOk(job, r', w) {
      assert WroteOk(job, r, w);
    }
  }

  lemma ResizeOpWrites(job: Job, r: Run, i: nat)
    requires var w := Resize(i);
      At(r.group, w, Body) && w in r.stages && InRange(r, w) && NextChild(r, w).None? && !r.stages[w].Ended?
    requires KindOk(Resize(i), r.stages[Resize(i)]) && DimOk(job, r, i)
    ensures var w, r' := Resize(i), BodyOp(job, r, Resize(i));
      var p := Sized(job.sizes[i], job.thumbnail(job.sizes[i]));
      && r'.stages.Keys == r.stages.Keys && (forall u | u in r.stages && u != w :: r'.stages[u] == r.stages[u])
      && (r'.tree == r.tree || r'.tree == r.tree[p := Folder])
      && (HasFolder(r'.stages[w]) && !HasFolder(r.stages[w]) ==> p in r'.tree)
  {
    match r.stages[Resize(i)]
    case ResizeScales =>
    case ResizeMakesFolder =>
    case ResizeLists(k) =>
    case ResizeAdds(k) =>
  }

  /** The widths, heights and formats a save reads are final. */
  lemma SaveReadsFinalDim(job: Job, r: Run, i: nat, j: nat)
    requires ShapeOk(r) && ParentsOk(r) && DimsOk(job, r) && TreeOk(job, r) && Save(i, j) in r.stages
    ensures i < |r.dims| && i < |job.sizes| && j < |r.dims[i].formats| && j < |job.Formats()|
    ensures var d := r.dims[i];
      && d.width == job.sizes[i] && d.height == job.thumbnail(job.sizes[i]) && d.formats == job.Formats()
      && Sized(d.width, d.height) in r.tree
  {
    assert ParentOk(r, Save(i, j));
    assert KindOk(Resize(i), r.stages[Resize(i)]);
    assert WroteOk(job, r, Save(i, j)) && WroteOk(job, r, Resize(i));
    assert DimOk(job, r, i);
    if !Passed(r.stages[Resize(i)], Save(i, j)) { assert PcOk(r, Resize(i)); }
    assert r.stages[Resize(i)].ResizeAdds? || r.stages[Resize(i)].Ended?;
  }

  lemma SaveOpKeepsDimsAndTree(job: Job, r: Run, i: nat, j: nat)
    requires ShapeOk(r) && ParentsOk(r) && DimsOk(job, r) && TreeOk(job, r)
    requires var w := Save(i, j); At(r.group, w, Body) && w in r.stages && InRange(r, w) && !r.stages[w].Ended?
    ensures var r' := BodyOp(job, r, Save(i, j)); DimsOk(job, r') && TreeOk(job, r') && r'.group == r.group
  {
    var w := Save(i, j);
    assert KindOk(w, r.stages[w]) && WroteOk(job, r, w);
    SaveReadsFinalDim(job, r, i, j);
    var r' := BodyOp(job, r, w);
    SaveOpWrites(job, r, i, j);
    hide BodyOp;
    assert DimsOk(job, r') by { OtherKeepsDims(job, r, r'); }
    forall u | u in r'.stages ensures WroteOk(job, r', u) {
      assert WroteOk(job, r, u);
    }
  }

  lemma SaveOpWrites(job: Job, r: Run, i: nat, j: nat)
    requires var w := Save(i, j);
      At(r.group, w, Body) && w in r.stages && InRange(r, w) && KindOk(w, r.stages[w]) && !r.stages[w].Ended?
    requires WroteOk(job, r, Save(i, j))
    requires var d := r.dims[i];
      && d.width == job.sizes[i] && d.height == job.thumbnail(job.sizes[i]) && d.formats == job.Formats()
      && Sized(d.width, d.height) in r.tree
    ensures var w, r' := Save(i, j), BodyOp(job, r, Save(i, j));
      var p := Variant(job.sizes[i], job.thumbnail(job.sizes[i]), job.Formats()[j]);
      && r'.group == r.group && r'.dims == r.dims && r'.original == r.original && r'.staged == r.staged
      && w in r'.stages && r'.stages == r.stages[w := r'.stages[w]]
      && (r'.tree == r.tree || r'.tree == r.tree[p := NodeAt(job, p)])
      && WroteOk(job, r', w)
  {
    match r.stages[Save(i, j)]
    case SaveEncodes =>
    case SaveWrites(content) =>
  }

  lemma ReturnKeepsShape(r: Run, w: Work)
    requires ShapeOk(r) && At(r.group, w, Body) && w in r.stages && r.stages[w].Ended?
    ensures ShapeOk(r.(group := Step(r.group, Return(w)))) && Settled(r.group, Step(r.group, Return(w)))
  {
    var r' := r.(group := Step(r.group, Return(w)));
    forall u | u in r'.stages ensures PcOk(r', u) {
      assert PcOk(r, u);
      assert NextChild(r', u) == NextChild(r, u);
    }
  }

  lemma ReturnKeeps(job: Job, r: Run, w: Work)
    requires BodiesOk(job, r) && At(r.group, w, Body) && w in r.stages && r.stages[w].Ended?
    ensures BodiesOk(job, r.(group := Step(r.group, Return(w))))
  {
    ReturnKeepsShape(r, w);
    SettledKeeps(job, r, Step(r.group, Return(w)));
  }

  lemma CallerFetchKeeps(job: Job, r: Run)
    requires TaskGroupInvariant.Inv(r.group) && BodiesOk(job, r) && ActEnabled(job, r, Inner(CallerFetch(Check)))
    ensures BodiesOk(job, Perform(job, r, Inner(CallerFetch(Check))))
  {
    var r' := Perform(job, r, Inner(CallerFetch(Check)));
    assert r.group.tasks == map[] && r.stages.Keys == {};
    hide TaskGroupInvariant.Inv;
    assert r'.stages.Keys == {Check} && r'.group.tasks.Keys == {Check};
    assert ShapeOk(r') && ParentsOk(r') by {
      assert PcOk(r', Check) && KindOk(Check, r'.stages[Check]) && ParentOk(r', Check);
    }
    assert ChildrenOk(r') by {
      forall c ensures !Owed(r', c) {
        assert r'.stages[Check].Checking?;
      }
    }
    assert DimsOk(job, r') by { OtherKeepsDims(job, r, r'); }
    assert TreeOk(job, r') by { assert WroteOk(job, r', Check); }
  }

  lemma OnlyCheck(r: Run)
    requires ShapeOk(r) && ParentsOk(r) && At(r.group, Check, Body) && Check in r.stages && r.stages[Check].Checking?
    ensures r.stages.Keys == {Check}
  {
    assert Load in r.stages ==> ParentOk(r, Load);
    forall c | c in r.stages ensures c == Check {
      assert ParentOk(r, c);
      assert ParentOf(c) in r.stages ==> ParentOk(r, ParentOf(c));
    }
  }

  lemma DecideKeeps(job: Job, r: Run, s: Stage)
    requires BodiesOk(job, r) && ActEnabled(job, r, Decide(s))
    ensures BodiesOk(job, Perform(job, r, Decide(s)))
  {
    var r' := Perform(job, r, Decide(s));
    OnlyCheck(r);
    assert r'.stages.Keys == {Check};
    assert DimsOk(job, r') by { OtherKeepsDims(job, r, r'); }
    assert ShapeOk(r') && ParentsOk(r') by {
      assert PcOk(r, Check);
      assert PcOk(r', Check) && KindOk(Check, s) && ParentOk(r', Check);
    }
    assert TreeOk(job, r') by { assert WroteOk(job, r', Check); }
    assert ChildrenOk(r') by {
      forall c ensures !Owed(r', c) {
        assert ParentOf(c) in r'.stages ==> c == Check || c == Load;
      }
    }
  }

  // ---------------------------------------------------------------- adding a task

  /** The state load of `add_task`: after an error the body goes on without adding. */
  lemma AddLoadKeeps(job: Job, r: Run, w: Work)
    requires BodiesOk(job, r) && At(r.group, w, Body) && w in r.stages && NextChild(r, w).Some?
    requires !r.group.state.DoneOk?
    ensures BodiesOk(job, AddLoad(r, w))
  {
    var r' := AddLoad(r, w);
    if r.group.state.DoneError? {
      assert r' == Goto(r, w, AfterAdd(r.stages[w]));
      SkipKeeps(job, r, w);
    } else {
      AddingKeepsShape(r, w);
      SettledKeeps(job, r, r'.group);
    }
  }

  lemma AddingKeepsShape(r: Run, w: Work)
    requires ShapeOk(r) && At(r.group, w, Body) && w in r.stages && NextChild(r, w).Some? && r.group.state.Running?
    ensures ShapeOk(r.(group := Step(r.group, AddTask(w)))) && Settled(r.group, Step(r.group, AddTask(w)))
  {
    var r' := r.(group := Step(r.group, AddTask(w)));
    forall u | u in r'.stages ensures PcOk(r', u) {
      assert PcOk(r, u);
      assert NextChild(r', u) == NextChild(r, u);
    }
  }

  lemma SkipKeeps(job: Job, r: Run, w: Work)
    requires BodiesOk(job, r) && At(r.group, w, Body) && w in r.stages && NextChild(r, w).Some?
    requires r.group.state.DoneError?
    ensures BodiesOk(job, Goto(r, w, AfterAdd(r.stages[w])))
  {
    assert KindOk(w, r.stages[w]);
    var r' := Goto(r, w, AfterAdd(r.stages[w]));
    AdvancedKeepsShape(r, r', w);
    AdvancedKeepsParents(r, r', w);
    assert DimsOk(job, r') by { AfterAddKeepsDims(job, r, r', w); }
    assert TreeOk(job, r') by { AfterAddKeepsTree(job, r, r', w); }
  }

  lemma AfterAddKeepsDims(job: Job, r: Run, r': Run, w: Work)
    requires DimsOk(job, r) && w in r.stages && KindOk(w, r.stages[w]) && NextChild(r, w).Some?
    requires r'.stages == r.stages[w := AfterAdd(r.stages[w])] && r'.dims == r.dims && r'.original == r.original
    requires r'.staged == r.staged
    ensures DimsOk(job, r')
  {
    forall i: nat | i < |r'.dims| ensures DimOk(job, r', i) {
      assert DimOk(job, r, i);
    }
  }

  lemma AfterAddKeepsTree(job: Job, r: Run, r': Run, w: Work)
    requires TreeOk(job, r) && w in r.stages && KindOk(w, r.stages[w]) && NextChild(r, w).Some?
    requires r'.stages == r.stages[w := AfterAdd(r.stages[w])] && r'.tree == r.tree
    ensures TreeOk(job, r')
  {
    forall u | u in r'.stages ensures WroteOk(job, r', u) {
      assert WroteOk(job, r, u);
    }
  }

  /** The task a body adds is its own child, is not there yet, and has valid indices. */
  lemma ChildIsFresh(r: Run, w: Work)
    requires ShapeOk(r) && ParentsOk(r) && w in r.stages && NextChild(r, w).Some? && !r.group.tasks[w].Pushing?
    ensures var c := NextChild(r, w).value;
      c !in r.stages && !c.Check? && ParentOf(c) == w && InRange(r, c)
      && !Passed(r.stages[w], c) && Passed(AfterAdd(r.stages[w]), c)
  {
    var c := NextChild(r, w).value;
    assert KindOk(w, r.stages[w]);
    assert c in r.stages ==> ParentOk(r, c);
  }

  /** `w` counted its child `c`. */
  ghost predicate HasCounted(r: Run, r': Run, w: Work, c: Work) {
    && w in r.stages && NextChild(r, w) == Some(c) && At(r.group, w, Adding) && c !in r.stages
    && !c.Check? && ParentOf(c) == w && InRange(r, c)
    && r'.stages == r.stages[c := StartOf(c)] && r'.dims == r.dims && r'.isNew == r.isNew
    && r'.group.tasks == r.group.tasks[c := Enqueuing(FromTask(w))][w := Pushing(c)]
    && r'.group.state == r.group.state
  }

  lemma CountKeepsPc(r: Run, r': Run, w: Work, c: Work, u: Work)
    requires ShapeOk(r) && HasCounted(r, r', w, c) && u in r'.stages
    ensures u in r'.group.tasks && KindOk(u, r'.stages[u]) && PcOk(r', u)
  {
    if u != c {
      assert PcOk(r, u) && KindOk(u, r.stages[u]);
    }
  }

  lemma CountKeepsShape(r: Run, r': Run, w: Work, c: Work)
    requires ShapeOk(r) && HasCounted(r, r', w, c)
    ensures ShapeOk(r')
  {
    assert r'.stages.Keys == r.stages.Keys + {c} && r'.group.tasks.Keys == r.group.tasks.Keys + {c};
    forall u | u in r'.stages ensures u in r'.group.tasks && PcOk(r', u) && KindOk(u, r'.stages[u]) {
      CountKeepsPc(r, r', w, c, u);
    }
  }

  lemma CountKeepsLinks(r: Run, r': Run, w: Work, c: Work)
    requires ParentsOk(r) && ChildrenOk(r) && HasCounted(r, r', w, c)
    ensures ParentsOk(r') && ChildrenOk(r')
  {
    forall u | u in r'.stages ensures ParentOk(r', u) {
      if u != c { assert ParentOk(r, u); }
    }
    forall u | Owed(r', u) && !r'.group.state.DoneError? ensures u in r'.stages {
      assert Owed(r, u);
    }
  }

  lemma CountEffect(job: Job, r: Run, w: Work)
    requires ShapeOk(r) && ParentsOk(r) && ActEnabled(job, r, Count(w)) && w in r.stages
    ensures var r' := Perform(job, r, Count(w));
      HasCounted(r, r', w, NextChild(r, w).value) && r'.tree == r.tree && r'.original == r.original && r'.staged == r.staged
  {
    ChildIsFresh(r, w);
    hide ShapeOk, ParentsOk;
  }

  lemma CountKeeps(job: Job, r: Run, w: Work)
    requires BodiesOk(job, r) && ActEnabled(job, r, Count(w))
    ensures BodiesOk(job, Perform(job, r, Count(w)))
  {
    var c := NextChild(r, w).value;
    assert w in r.stages;
    CountEffect(job, r, w);
    hide Perform, ActEnabled, ShapeOk, ParentsOk, ChildrenOk, DimsOk, TreeOk, NextChild;
    CountedKeeps(job, r, Perform(job, r, Count(w)), w, c);
  }

  lemma CountedKeeps(job: Job, r: Run, r': Run, w: Work, c: Work)
    requires BodiesOk(job, r) && HasCounted(r, r', w, c)
    requires r'.tree == r.tree && r'.original == r.original && r'.staged == r.staged
    ensures BodiesOk(job, r')
  {
    CountedKeepsWork(job, r, r', w, c);
    hide ShapeOk, ParentsOk, ChildrenOk, DimsOk, TreeOk, HasCounted;
    CountKeepsShape(r, r', w, c);
    CountKeepsLinks(r, r', w, c);
  }

  lemma CountedKeepsWork(job: Job, r: Run, r': Run, w: Work, c: Work)
    requires DimsOk(job, r) && TreeOk(job, r) && HasCounted(r, r', w, c) && r.stages.Keys == r.group.tasks.Keys
    requires r'.tree == r.tree && r'.original == r.original && r'.staged == r.staged
    ensures DimsOk(job, r') && TreeOk(job, r')
  {
    hide NextChild;
    assert DimsOk(job, r') by { OtherKeepsDims(job, r, r'); }
    assert TreeOk(job, r') by { CountKeepsTree(job, r, r', c); }
  }

  lemma CountKeepsTree(job: Job, r: Run, r': Run, c: Work)
    requires DimsOk(job, r) && TreeOk(job, r) && InRange(r, c) && c !in r.stages
    requires r'.stages == r.stages[c := StartOf(c)] && r'.tree == r.tree
    ensures TreeOk(job, r')
  {
    assert c.Save? ==> DimOk(job, r, c.index);
    forall u | u in r'.stages ensures WroteOk(job, r', u) {
      if u != c { assert WroteOk(job, r, u); }
    }
  }

  /** `w` handed its child `c` to the pool and went on. */
  ghost predicate HasHanded(r: Run, r': Run, w: Work, c: Work) {
    && w in r.stages && At(r.group, w, Pushing(c)) && NextChild(r, w) == Some(c) && KindOk(w, r.stages[w])
    && At(r.group, c, Enqueuing(FromTask(w))) && c in r.stages
    && r'.stages == r.stages[w := AfterAdd(r.stages[w])] && r'.dims == r.dims && r'.isNew == r.isNew
    && r'.group.tasks == r.group.tasks[c := Queued][w := Body]
    && r'.group.state == r.group.state
  }

  lemma HandKeepsPc(r: Run, r': Run, w: Work, c: Work, u: Work)
    requires ShapeOk(r) && HasHanded(r, r', w, c) && u in r'.stages
    ensures u in r'.group.tasks && KindOk(u, r'.stages[u]) && PcOk(r', u)
  {
    assert KindOk(u, r.stages[u]) && PcOk(r, u);
    hide ShapeOk;
    if u != w { HandKeepsOtherPc(r, r', w, c, u); }
  }

  lemma HandKeepsOtherPc(r: Run, r': Run, w: Work, c: Work, u: Work)
    requires HasHanded(r, r', w, c) && u in r.stages && u in r'.stages && u in r.group.tasks && PcOk(r, u) && u != w
    ensures u in r'.group.tasks && PcOk(r', u)
  {
    hide KindOk;
    assert NextChild(r', u) == NextChild(r, u);
  }

  lemma HandKeepsShape(r: Run, r': Run, w: Work, c: Work)
    requires ShapeOk(r) && HasHanded(r, r', w, c)
    ensures ShapeOk(r')
  {
    assert r'.stages.Keys == r.stages.Keys && r'.group.tasks.Keys == r.group.tasks.Keys;
    forall u | u in r'.stages ensures u in r'.group.tasks && PcOk(r', u) && KindOk(u, r'.stages[u]) {
      HandKeepsPc(r, r', w, c, u);
    }
  }

  lemma HandKeepsParent(r: Run, r': Run, w: Work, c: Work, u: Work)
    requires ParentsOk(r) && HasHanded(r, r', w, c) && u in r.stages
    ensures ParentOk(r', u)
  {
    assert ParentOk(r, u);
  }

  lemma HandKeepsOwed(r: Run, r': Run, w: Work, c: Work, u: Work)
    requires HasHanded(r, r', w, c) && Owed(r', u)
    ensures Owed(r, u) || u == c
  {
  }

  lemma HandKeepsLinks(r: Run, r': Run, w: Work, c: Work)
    requires ParentsOk(r) && ChildrenOk(r) && HasHanded(r, r', w, c)
    ensures ParentsOk(r') && ChildrenOk(r')
  {
    forall u | u in r'.stages ensures ParentOk(r', u) {
      HandKeepsParent(r, r', w, c, u);
    }
    forall u | Owed(r', u) && !r'.group.state.DoneError? ensures u in r'.stages {
      HandKeepsOwed(r, r', w, c, u);
    }
  }

  lemma HandKeeps(job: Job, r: Run, w: Work)
    requires BodiesOk(job, r) && TaskGroupInvariant.AddersOk(r.group) && ActEnabled(job, r, Hand(w))
    ensures BodiesOk(job, Perform(job, r, Hand(w)))
  {
    var r' := Perform(job, r, Hand(w));
    var c := r.group.tasks[w].child;
    assert KindOk(w, r.stages[w]) && PcOk(r, w);
    assert HasHanded(r, r', w, c);
    assert r'.tree == r.tree && r'.original == r.original && r'.staged == r.staged;
    hide Perform, ActEnabled;
    HandKeepsShape(r, r', w, c);
    HandKeepsLinks(r, r', w, c);
    assert DimsOk(job, r') by { AfterAddKeepsDims(job, r, r', w); }
    assert TreeOk(job, r') by { AfterAddKeepsTree(job, r, r', w); }
  }

  // ---------------------------------------------------------------- all steps

  lemma OpKeeps(job: Job, r: Run, w: Work)
    requires BodiesOk(job, r) && TaskGroupInvariant.Inv(r.group) && ActEnabled(job, r, Op(w))
    ensures BodiesOk(job, Perform(job, r, Op(w)))
  {
    TaskGroupInvariant.PendingNotDone(r.group, w);
    assert KindOk(w, r.stages[w]);
    hide TaskGroupInvariant.Inv, ShapeOk, ParentsOk, ChildrenOk, DimsOk, TreeOk, BodyOp, AddLoad;
    if NextChild(r, w).Some? {
      AddLoadKeeps(job, r, w);
    } else if r.stages[w].Ended? {
      EndedOp(job, r, w);
      ReturnKeeps(job, r, w);
    } else {
      match w
      case Check =>
      case Load => LoadOpKeepsLinks(job, r); LoadOpKeepsDims(job, r); LoadOpKeepsTree(job, r);
      case Resize(i) => ResizeOpKeepsLinks(job, r, i); ResizeOpKeepsDims(job, r, i); ResizeOpKeepsTree(job, r, i);
      case Save(i, j) => SaveOpKeepsLinks(job, r, i, j); SaveOpKeepsDimsAndTree(job, r, i, j);
    }
  }

  lemma EndedOp(job: Job, r: Run, w: Work)
    requires At(r.group, w, Body) && w in r.stages && InRange(r, w) && r.stages[w].Ended?
    ensures BodyOp(job, r, w) == r.(group := Step(r.group, Return(w)))
  {
  }

  lemma ActKeepsBodies(job: Job, r: Run, act: Act)
    requires BodiesOk(job, r) && TaskGroupInvariant.Inv(r.group) && ActEnabled(job, r, act)
    ensures BodiesOk(job, Perform(job, r, act))
  {
    hide BodiesOk, Perform, Enabled;
    match act
    case Inner(a) => if a.CallerFetch? { CallerFetchKeeps(job, r); } else { InnerKeeps(job, r, a); }
    case Decide(s) => DecideKeeps(job, r, s);
    case Op(w) => OpKeeps(job, r, w);
    case Count(w) => CountKeeps(job, r, w);
    case Hand(w) => HandKeeps(job, r, w);
    case Fail(w) => FailKeeps(job, r, w);
  }

  /** What a step does to the group is a step of the group, or nothing. */
  ghost predicate IsGroupStep(act: Act, g: Group<Work>, g': Group<Work>) {
    g' == g || exists a :: Enabled(g, a) && g' == Step(g, a) && (a.Cancel? || a.CancelCallback? ==> act == Inner(a))
  }

  lemma ActIsGroupStep(job: Job, r: Run, act: Act)
    requires ActEnabled(job, r, act)
    ensures IsGroupStep(act, r.group, Perform(job, r, act).group)
  {
    hide Step, BodyOp;
    match act
    case Inner(a) =>
    case Decide(s) =>
    case Op(w) => BodyOpIsGroupStep(job, r, w); assert Enabled(r.group, AddTask(w));
    case Count(w) => assert Enabled(r.group, Fetch(w, NextChild(r, w).value));
    case Hand(w) => assert Enabled(r.group, Push(w));
    case Fail(w) => assert Enabled(r.group, Throw(w));
  }

  lemma BodyOpIsGroupStep(job: Job, r: Run, w: Work)
    requires At(r.group, w, Body) && w in r.stages && InRange(r, w)
    ensures IsGroupStep(Op(w), r.group, BodyOp(job, r, w).group)
  {
    hide Step;
    assert Enabled(r.group, Throw(w)) && Enabled(r.group, Return(w));
  }

  // ---------------------------------------------------------------- how many tasks there are

  /** The saves of one width, the resizes and saves of the first `n` widths, all tasks. */
  function SavesOf(i: nat, f: nat): set<Work> {
    if f == 0 then {} else SavesOf(i, f - 1) + {Save(i, f - 1)}
  }

  function WorkOf(n: nat, f: nat): set<Work> {
    if n == 0 then {Check, Load} else WorkOf(n - 1, f) + {Resize(n - 1)} + SavesOf(n - 1, f)
  }

  /** The tasks of a new image: one check, one load, N resizes, N * F saves. */
  function MaxTasks(job: Job): nat {
    2 + |job.sizes| * (1 + |job.Formats()|)
  }

  lemma {:induction false} SavesOfSize(i: nat, f: nat)
    ensures |SavesOf(i, f)| == f
    ensures forall w :: w in SavesOf(i, f) <==> w.Save? && w.index == i && w.format < f
  {
    if f == 0 {
    } else {
      SavesOfSize(i, f - 1);
    }
  }

  lemma {:induction false} IsInWorkOf(n: nat, f: nat, w: Work)
    ensures w in WorkOf(n, f) <==>
      w.Check? || w.Load? || (w.Resize? && w.index < n) || (w.Save? && w.index < n && w.format < f)
  {
    hide SavesOf;
    if n == 0 {
    } else {
      IsInWorkOf(n - 1, f, w);
      SavesOfSize(n - 1, f);
    }
  }

  lemma InWorkOf(n: nat, f: nat)
    ensures forall w :: w in WorkOf(n, f) <==>
      w.Check? || w.Load? || (w.Resize? && w.index < n) || (w.Save? && w.index < n && w.format < f)
  {
    hide WorkOf;
    forall w ensures w in WorkOf(n, f) <==>
      w.Check? || w.Load? || (w.Resize? && w.index < n) || (w.Save? && w.index < n && w.format < f)
    {
      IsInWorkOf(n, f, w);
    }
  }

  lemma DisjointSize<T>(a: set<T>, b: set<T>)
    requires a !! b
    ensures |a + b| == |a| + |b|
  {
  }

  lemma WorkParts(n: nat, f: nat)
    ensures WorkOf(n, f) !! {Resize(n)} && WorkOf(n, f) + {Resize(n)} !! SavesOf(n, f)
  {
    InWorkOf(n, f);
    SavesOfSize(n, f);
    hide WorkOf, SavesOf;
  }

  lemma WorkSplits(n: nat, f: nat)
    ensures |WorkOf(n, f) + {Resize(n)} + SavesOf(n, f)| == |WorkOf(n, f)| + 1 + |SavesOf(n, f)|
  {
    WorkParts(n, f);
    hide WorkOf, SavesOf;
    DisjointSize(WorkOf(n, f), {Resize(n)});
    DisjointSize(WorkOf(n, f) + {Resize(n)}, SavesOf(n, f));
  }

  lemma SavesCount(i: nat, f: nat)
    ensures |SavesOf(i, f)| == f
  {
    SavesOfSize(i, f);
  }

  lemma WorkStep(n: nat, f: nat)
    requires n > 0
    ensures |WorkOf(n, f)| == |WorkOf(n - 1, f)| + 1 + f
  {
    hide WorkOf, SavesOf;
    WorkUnfolds(n, f);
    WorkSplits(n - 1, f);
    SavesCount(n - 1, f);
  }

  lemma WorkUnfolds(n: nat, f: nat)
    requires n > 0
    ensures WorkOf(n, f) == WorkOf(n - 1, f) + {Resize(n - 1)} + SavesOf(n - 1, f)
  {
    hide SavesOf;
  }

  lemma NoWork(f: nat)
    ensures |WorkOf(0, f)| == 2
  {
    assert WorkOf(0, f) == {Check, Load};
  }

  lemma {:induction false} WorkIsProduct(n: nat, f: nat, k: nat)
    requires k == 1 + f
    ensures |WorkOf(n, f)| == 2 + n * k
  {
    hide WorkOf;
    if n == 0 {
      NoWork(f);
    } else {
      WorkIsProduct(n - 1, f, k);
      WorkStep(n, f);
      assert n * k == (n - 1) * k + k;
    }
  }

  lemma WorkOfSize(n: nat, f: nat)
    ensures |WorkOf(n, f)| == 2 + n * (1 + f)
  {
    WorkIsProduct(n, f, 1 + f);
  }

  lemma SubsetSize<T>(a: set<T>, b: set<T>)
    requires a <= b
    ensures |a| <= |b|
  {
    assert b == a + (b - a);
    assert |b| == |a| + |b - a|;
  }

  lemma KeysAreWork(job: Job, r: Run)
    requires BodiesOk(job, r)
    ensures r.group.tasks.Keys <= WorkOf(|job.sizes|, |job.Formats()|)
  {
    InWorkOf(|job.sizes|, |job.Formats()|);
    hide WorkOf;
    forall w | w in r.stages ensures w in WorkOf(|job.sizes|, |job.Formats()|) {
      assert ParentOk(r, w) && WroteOk(job, r, w);
    }
  }

  /** A run never has more tasks than the sequential program has pieces of work. */
  lemma TasksAreWork(job: Job, r: Run)
    requires BodiesOk(job, r)
    ensures Live(r.group.tasks) <= |r.group.tasks| <= MaxTasks(job)
  {
    KeysAreWork(job, r);
    hide BodiesOk, WorkOf;
    WorkOfSize(|job.sizes|, |job.Formats()|);
    SubsetSize(r.group.tasks.Keys, WorkOf(|job.sizes|, |job.Formats()|));
    SubsetSize(CountedKeys(r.group.tasks), r.group.tasks.Keys);
  }
}
