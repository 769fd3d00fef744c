/** What holds over every interleaving of an upload's tasks: the result of a successful run
    does not depend on the schedule, no index is shared, and the number of tasks is known. */
module FanoutTheorems {
  import opened TaskGroups
  import TaskGroupInvariant
  import TaskGroupTheorems
  import opened Fanout
  import opened FanoutInvariant

  /** The invariant of a whole run. */
  ghost predicate RunOk(job: Job, r: Run) {
    BodiesOk(job, r) && TaskGroupInvariant.Inv(r.group)
  }

  /** The upload cannot overrun the 16-bit counter of its group. */
  predicate Fits(job: Job) {
    MaxTasks(job) <= MAX_INT16
  }

  lemma InitRunOk(job: Job)
    ensures RunOk(job, InitRun(job))
  {
    TaskGroupTheorems.InitInv<Work>();
    var r := InitRun(job);
    assert r.stages.Keys == {} == r.group.tasks.Keys;
    assert ChildrenOk(r) by {
      forall c ensures !Owed(r, c) {
      }
    }
  }

  lemma ActKeepsRunOk(job: Job, r: Run, act: Act)
    requires Fits(job) && RunOk(job, r) && ActEnabled(job, r, act)
    ensures RunOk(job, Perform(job, r, act))
  {
    TasksAreWork(job, r);
    CountedActKeepsRunOk(job, r, act);
  }

  lemma CountedActKeepsRunOk(job: Job, r: Run, act: Act)
    requires RunOk(job, r) && ActEnabled(job, r, act) && Live(r.group.tasks) <= MAX_INT16
    ensures RunOk(job, Perform(job, r, act))
  {
    hide TaskGroupInvariant.Inv, Perform, ActEnabled, BodiesOk, Step, Enabled;
    ActKeepsBodies(job, r, act);
    ActIsGroupStep(job, r, act);
    var g' := Perform(job, r, act).group;
    if g' != r.group {
      var a :| Enabled(r.group, a) && g' == Step(r.group, a);
      TaskGroupInvariant.StepKeepsInv(r.group, a);
    }
  }

  lemma {:induction false} RunsAreOk(job: Job, acts: seq<Act>)
    requires Fits(job) && LegalRun(job, InitRun(job), acts)
    ensures RunOk(job, EndOf(job, InitRun(job), acts))
  {
    hide RunOk, Perform, Fits;
    if acts == [] {
      InitRunOk(job);
    } else {
      var before := acts[..|acts| - 1];
      RunsAreOk(job, before);
      ActKeepsRunOk(job, EndOf(job, InitRun(job), before), acts[|acts| - 1]);
    }
  }

  // ---------------------------------------------------------------- schedule independence

  /** The staged folder of the sequential program holds exactly the expected entries. */
  lemma {:induction false} SaveAllIs(job: Job, tree: Tree, w: nat, n: nat)
    requires n <= |job.Formats()|
    ensures var t := SaveAll(job, tree, w, n);
      && (forall p :: p in t <==> p in tree || (p.Variant? && p.width == w && p.height == job.thumbnail(w)
                                                && p.extension in job.Formats()[..n]))
      && (forall p | p in t && (p !in tree || tree[p] == NodeAt(job, p)) :: t[p] == NodeAt(job, p))
  {
    if n == 0 {
    } else {
      SaveAllIs(job, tree, w, n - 1);
      assert job.Formats()[..n] == job.Formats()[..n - 1] + [job.Formats()[n - 1]];
    }
  }

  /** The entries expected of the first `n` widths. */
  predicate ExpectsOf(job: Job, n: nat, p: Path)
    requires n <= |job.sizes|
  {
    match p
    case Original(e) => e == job.Format()
    case Sized(w, h) => w in job.sizes[..n] && h == job.thumbnail(w)
    case Variant(w, h, e) => w in job.sizes[..n] && h == job.thumbnail(w) && e in job.Formats()
  }

  lemma {:induction false} TreeOfIs(job: Job, n: nat)
    requires n <= |job.sizes|
    ensures forall p :: p in TreeOf(job, n) <==> ExpectsOf(job, n, p)
    ensures forall p | p in TreeOf(job, n) :: TreeOf(job, n)[p] == NodeAt(job, p)
  {
    if n == 0 {
    } else {
      TreeOfIs(job, n - 1);
      var w := job.sizes[n - 1];
      var tree := TreeOf(job, n - 1)[Sized(w, job.thumbnail(w)) := Folder];
      SaveAllIs(job, tree, w, |job.Formats()|);
      assert job.Formats()[..|job.Formats()|] == job.Formats();
      assert job.sizes[..n] == job.sizes[..n - 1] + [w];
    }
  }

  lemma FinishedHasChildren(job: Job, r: Run)
    requires BodiesOk(job, r) && r.isNew && !r.group.state.DoneError?
    requires forall w | w in r.stages :: r.stages[w].Ended?
    ensures Load in r.stages && |r.dims| == |job.sizes|
    ensures forall i: nat | i < |job.sizes| :: Resize(i) in r.stages
    ensures forall i: nat, j: nat | i < |job.sizes| && j < |job.Formats()| :: Save(i, j) in r.stages
  {
    assert Owed(r, Load);
    forall i: nat | i < |job.sizes| ensures Resize(i) in r.stages && |r.dims[i].formats| == |job.Formats()| {
      assert Owed(r, Resize(i));
      assert DimOk(job, r, i);
    }
    forall i: nat, j: nat | i < |job.sizes| && j < |job.Formats()| ensures Save(i, j) in r.stages {
      assert Resize(i) in r.stages;
      assert Owed(r, Save(i, j));
    }
  }

  /** Once the group has finished, every task of the sequential program has run to its end. */
  lemma FinishedMeansAllDone(job: Job, r: Run)
    requires RunOk(job, r) && r.isNew && OnFinish in r.group.callbacks
    ensures forall w | w in WorkOf(|job.sizes|, |job.Formats()|) :: w in r.stages && r.stages[w].Ended?
    ensures |r.dims| == |job.sizes|
  {
    TaskGroupTheorems.FinishedIsQuiet(r.group);
    forall w | w in r.stages ensures r.stages[w].Ended? {
      assert PcOk(r, w);
    }
    FinishedHasChildren(job, r);
    InWorkOf(|job.sizes|, |job.Formats()|);
    assert ParentOk(r, Load);
    hide RunOk, WorkOf;
  }

  lemma FinishedDim(job: Job, r: Run, i: nat)
    requires DimOk(job, r, i) && Resize(i) in r.stages && r.stages[Resize(i)].Ended?
    ensures r.dims[i] == DimsOf(job)[i]
  {
    assert job.Formats()[..|job.Formats()|] == job.Formats();
  }

  lemma FinishedDims(job: Job, r: Run)
    requires RunOk(job, r) && r.isNew && OnFinish in r.group.callbacks
    ensures r.dims == DimsOf(job)
  {
    FinishedMeansAllDone(job, r);
    InWorkOf(|job.sizes|, |job.Formats()|);
    assert DimsOk(job, r);
    hide RunOk, WorkOf;
    forall i: nat | i < |job.sizes| ensures r.dims[i] == DimsOf(job)[i] {
      assert Resize(i) in WorkOf(|job.sizes|, |job.Formats()|);
      FinishedDim(job, r, i);
    }
  }

  lemma FinishedTree(job: Job, r: Run)
    requires RunOk(job, r) && r.isNew && OnFinish in r.group.callbacks
    ensures r.tree == TreeOf(job, |job.sizes|)
  {
    FinishedMeansAllDone(job, r);
    assert TreeOk(job, r);
    TreeIsSequential(job, r);
  }

  lemma TreeIsSequential(job: Job, r: Run)
    requires TreeOk(job, r)
    requires forall w | w in WorkOf(|job.sizes|, |job.Formats()|) :: w in r.stages && r.stages[w].Ended?
    ensures r.tree == TreeOf(job, |job.sizes|)
  {
    TreeOfIs(job, |job.sizes|);
    hide WorkOf, TreeOf;
    assert job.sizes[..|job.sizes|] == job.sizes;
    forall p ensures p in r.tree <==> Expects(job, p) {
      if Expects(job, p) { ExpectedIsThere(job, r, p); }
    }
    assert r.tree.Keys == TreeOf(job, |job.sizes|).Keys;
  }

  /** A run that ends Done_OK leaves the dimensions and the staged folder of the sequential
      program, whatever the interleaving. */
  lemma ScheduleIndependence(job: Job, r: Run)
    requires RunOk(job, r) && r.isNew && OnFinish in r.group.callbacks
    ensures r.dims == DimsOf(job)
    ensures r.tree == TreeOf(job, |job.sizes|)
  {
    FinishedDims(job, r);
    FinishedTree(job, r);
  }

  lemma ExpectedIsThere(job: Job, r: Run, p: Path)
    requires TreeOk(job, r) && Expects(job, p)
    requires forall w | w in WorkOf(|job.sizes|, |job.Formats()|) :: w in r.stages && r.stages[w].Ended?
    ensures p in r.tree
  {
    InWorkOf(|job.sizes|, |job.Formats()|);
    match p
    case Original(e) =>
      assert Load in WorkOf(|job.sizes|, |job.Formats()|);
      assert WroteOk(job, r, Load);
    case Sized(w, h) =>
      var i :| 0 <= i < |job.sizes| && job.sizes[i] == w;
      assert Resize(i) in WorkOf(|job.sizes|, |job.Formats()|);
      assert WroteOk(job, r, Resize(i));
    case Variant(w, h, e) =>
      var i :| 0 <= i < |job.sizes| && job.sizes[i] == w;
      var j :| 0 <= j < |job.Formats()| && job.Formats()[j] == e;
      assert Save(i, j) in WorkOf(|job.sizes|, |job.Formats()|);
      assert WroteOk(job, r, Save(i, j));
  }

  /** The same, said of runs from the start. */
  lemma EveryScheduleGivesTheSameResult(job: Job, acts: seq<Act>)
    requires Fits(job) && LegalRun(job, InitRun(job), acts)
    requires var r := EndOf(job, InitRun(job), acts); r.isNew && OnFinish in r.group.callbacks
    ensures var r := EndOf(job, InitRun(job), acts); r.dims == DimsOf(job) && r.tree == TreeOf(job, |job.sizes|)
  {
    RunsAreOk(job, acts);
    ScheduleIndependence(job, EndOf(job, InitRun(job), acts));
  }

  /** What that result is, entry by entry: the image as it was uploaded, under the format libmagic
      detected or else the uploader's extension; and for every size a folder with the image in that
      width in each of the formats configured for the original's format. */
  lemma ResultIs(job: Job, acts: seq<Act>)
    requires Fits(job) && LegalRun(job, InitRun(job), acts)
    requires var r := EndOf(job, InitRun(job), acts); r.isNew && OnFinish in r.group.callbacks
    ensures var r, f := EndOf(job, InitRun(job), acts), if job.detected.Some? then job.detected.value else job.extension;
      && (forall e :: Original(e) in r.tree <==> e == f)
      && (Original(f) in r.tree && r.tree[Original(f)] == File(job.data))
      && (forall w, h :: Sized(w, h) in r.tree <==> w in job.sizes && h == job.thumbnail(w))
      && (forall w, h | Sized(w, h) in r.tree :: r.tree[Sized(w, h)] == Folder)
      && (forall w, h, e :: Variant(w, h, e) in r.tree <==> w in job.sizes && h == job.thumbnail(w) && e in job.formats(f))
      && (forall w, h, e | Variant(w, h, e) in r.tree :: r.tree[Variant(w, h, e)] == File(job.encode(w, e)))
      && |r.dims| == |job.sizes|
      && (forall i: nat | i < |r.dims| :: r.dims[i] == Dim(job.sizes[i], job.thumbnail(job.sizes[i]), job.formats(f)))
  {
    EveryScheduleGivesTheSameResult(job, acts);
    TreeOfIs(job, |job.sizes|);
    assert job.sizes[..|job.sizes|] == job.sizes;
    hide TreeOf, LegalRun, EndOf;
  }

  // ---------------------------------------------------------------- sharing and counting

  /** While the resize of index `i` still writes `dimensions[i]`, no save that reads it exists. */
  lemma WritersAreAlone(job: Job, r: Run, i: nat, j: nat)
    requires RunOk(job, r) && Save(i, j) in r.stages
    ensures Resize(i) in r.stages && (r.stages[Resize(i)].ResizeAdds? || r.stages[Resize(i)].Ended?)
    ensures i < |r.dims| && r.dims[i] == DimsOf(job)[i]
  {
    SaveReadsFinalDim(job, r, i, j);
    assert ParentOk(r, Save(i, j));
    assert KindOk(Resize(i), r.stages[Resize(i)]);
    if !Passed(r.stages[Resize(i)], Save(i, j)) { assert PcOk(r, Resize(i)); }
  }

  /** A body's next operation never finds an index out of range, nor a task already added. */
  lemma BodiesAreNeverStuck(job: Job, r: Run, w: Work)
    requires RunOk(job, r) && w in r.group.tasks
    ensures r.group.tasks[w].Body? && !r.stages[w].Checking? ==> ActEnabled(job, r, Op(w))
    ensures r.group.tasks[w].Adding? ==> ActEnabled(job, r, Count(w))
    ensures r.group.tasks[w].Pushing? ==> ActEnabled(job, r, Hand(w))
  {
    assert ParentOk(r, w) && PcOk(r, w);
    if r.group.tasks[w].Adding? { ChildIsFresh(r, w); }
  }

  /** A save always finds its folder: no run fails because a parent folder is missing. */
  lemma ParentFoldersComeFirst(job: Job, r: Run, i: nat, j: nat)
    requires RunOk(job, r) && ActEnabled(job, r, Op(Save(i, j)))
    ensures Sized(r.dims[i].width, r.dims[i].height) in r.tree
    ensures !r.stages[Save(i, j)].Ended? ==> Perform(job, r, Op(Save(i, j))).group == r.group
  {
    SaveReadsFinalDim(job, r, i, j);
    if !r.stages[Save(i, j)].Ended? { SaveOpKeepsDimsAndTree(job, r, i, j); }
    assert KindOk(Save(i, j), r.stages[Save(i, j)]);
    hide RunOk, BodyOp;
  }

  /** A new image adds at most 2 + N * (1 + F) tasks, and exactly that many when it succeeds. */
  lemma TaskCount(job: Job, r: Run)
    requires RunOk(job, r)
    ensures |r.group.tasks| <= MaxTasks(job)
    ensures r.isNew && OnFinish in r.group.callbacks ==> |r.group.tasks| == MaxTasks(job)
  {
    TasksAreWork(job, r);
    if r.isNew && OnFinish in r.group.callbacks {
      FinishedMeansAllDone(job, r);
      KeysAreWork(job, r);
      WorkOfSize(|job.sizes|, |job.Formats()|);
      assert r.group.tasks.Keys == r.stages.Keys;
      hide RunOk, WorkOf;
      assert r.group.tasks.Keys == WorkOf(|job.sizes|, |job.Formats()|);
    }
  }
}
