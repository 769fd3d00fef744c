/** One upload's work in src/image_processing.hpp: check, load, N resizes and N * F saves,
    all tasks of one group, running in any interleaving.

    A `Run` couples the task group's state machine with what the task bodies do: each body is
    a sequence of atomic operations on the shared `dimensions` vector and the staged folder. */
module Fanout {
  import opened TaskGroups

  type Bytes = seq<bv8>

  datatype Option<+V> = None | Some(value: V)

  /** What libvips, libmagic and the configuration answer for one upload, as functions of
      their inputs. `sizes` is `get_sizes(original.width)` in the order of the set, `formats`
      is `get_formats`, `thumbnail(w)` the height of the image resized to width `w`, and
      `encode(w, f)` that image written in format `f`. */
  datatype Job = Job(
    data: Bytes,
    extension: string,
    detected: Option<string>,
    sizes: seq<nat>,
    formats: string -> seq<string>,
    thumbnail: nat -> nat,
    encode: (nat, string) -> Bytes)
  {
    /** `original.formats[0]` once `load_image` has asked libmagic. */
    function Format(): string {
      if detected.Some? then detected.value else extension
    }

    function Formats(): seq<string> {
      formats(Format())
    }
  }

  datatype Work = Check | Load | Resize(index: nat) | Save(index: nat, format: nat)

  /** `dimensions_spec`. */
  datatype Dim = Dim(width: nat, height: nat, formats: seq<string>)

  /** Entries of the staged folder. The file name proper is the same for all files. */
  datatype Path = Original(extension: string) | Sized(width: nat, height: nat) | Variant(width: nat, height: nat, extension: string)

  datatype Node = Folder | File(content: Bytes)

  type Tree = map<Path, Node>

  /** Where the body of `check_existence` stands before it adds `load_image`. */
  datatype CheckPc = FirstLook | Emplacing | Waiting | LookAfterWait | LookAgain

  /** The next operation of a task's body. */
  datatype Stage =
    | Checking(pc: CheckPc)
    | CheckAdds
    | LoadStages | LoadDetects | LoadWrites | LoadPushes(next: nat) | LoadAdds(next: nat)
    | ResizeScales | ResizeMakesFolder | ResizeLists(next: nat) | ResizeAdds(next: nat)
    | SaveEncodes | SaveWrites(content: Bytes)
    | Ended

  datatype Run = Run(
    group: Group<Work>,
    stages: map<Work, Stage>,
    isNew: bool,
    staged: bool,
    original: string,
    dims: seq<Dim>,
    tree: Tree)

  datatype Act =
    | Inner(a: Action<Work>)   // a step of the group that no body takes
    | Decide(stage: Stage)     // a step of check_existence's protocol with the other uploads
    | Op(task: Work)           // the next operation of a body
    | Count(task: Work)        // the fetch_add of an add_task
    | Hand(task: Work)         // its hand-over to the pool
    | Fail(task: Work)         // an exception in a body

  function InitRun(job: Job): Run {
    Run(Init(), map[], false, false, job.extension, [], map[])
  }

  function StartOf(w: Work): Stage {
    match w
    case Check => Checking(FirstLook)
    case Load => LoadStages
    case Resize(i) => ResizeScales
    case Save(i, j) => SaveEncodes
  }

  /** The task the body of `w` adds next, if adding is what it does next. */
  function NextChild(r: Run, w: Work): Option<Work> {
    if w !in r.stages then None else
    match r.stages[w]
    case CheckAdds => Some(Load)
    case LoadAdds(k) => if k < |r.dims| then Some(Resize(k)) else None
    case ResizeAdds(k) =>
      if w.Resize? && w.index < |r.dims| && k < |r.dims[w.index].formats| then Some(Save(w.index, k)) else None
    case _ => None
  }

  function AfterAdd(s: Stage): Stage {
    match s
    case LoadAdds(k) => LoadAdds(k + 1)
    case ResizeAdds(k) => ResizeAdds(k + 1)
    case _ => Ended
  }

  /** The group steps that run on their own. */
  predicate IsInner(a: Action<Work>) {
    a.CallerLoad? || a == CallerFetch(Check) || a.CallerPush? || a.Cancel? || a.CancelCallback? || a.Pop? || a.Wrapper?
  }

  predicate CanDecide(s: Stage) {
    s.Checking? || s.CheckAdds? || s.Ended?
  }

  /** The indices an operation uses exist. Proved of every reachable state. */
  predicate InRange(r: Run, w: Work) {
    match w
    case Check => true
    case Load => true
    case Resize(i) => i < |r.dims|
    case Save(i, j) => i < |r.dims| && j < |r.dims[i].formats|
  }

  predicate ActEnabled(job: Job, r: Run, act: Act) {
    match act
    case Inner(a) => IsInner(a) && Enabled(r.group, a)
    case Decide(s) => At(r.group, Check, Body) && Check in r.stages && r.stages[Check].Checking? && CanDecide(s)
    case Op(w) => At(r.group, w, Body) && w in r.stages && !r.stages[w].Checking? && InRange(r, w)
    case Count(w) => At(r.group, w, Adding) && NextChild(r, w).Some? && NextChild(r, w).value !in r.group.tasks
    case Hand(w) => w in r.group.tasks && r.group.tasks[w].Pushing? && w in r.stages
    case Fail(w) => At(r.group, w, Body)
  }

  function Goto(r: Run, w: Work, s: Stage): Run {
    r.(stages := r.stages[w := s])
  }

  function Perform(job: Job, r: Run, act: Act): Run
    requires ActEnabled(job, r, act)
  {
    match act
    case Inner(a) =>
      var r' := r.(group := Step(r.group, a));
      if a.CallerFetch? then Goto(r', Check, StartOf(Check)) else r'
    case Decide(s) => Goto(r, Check, s).(isNew := r.isNew || s.CheckAdds?)
    case Op(w) => if NextChild(r, w).Some? then AddLoad(r, w) else BodyOp(job, r, w)
    case Count(w) =>
      var child := NextChild(r, w).value;
      Goto(r, child, StartOf(child)).(group := Step(r.group, Fetch(w, child)))
    case Hand(w) => Goto(r, w, AfterAdd(r.stages[w])).(group := Step(r.group, Push(w)))
    case Fail(w) => r.(group := Step(r.group, Throw(w)))
  }

  /** The state load at the head of `add_task`; after an error the task is not added. */
  function AddLoad(r: Run, w: Work): Run
    requires At(r.group, w, Body) && w in r.stages
  {
    var r' := r.(group := Step(r.group, AddTask(w)));
    if r.group.state.DoneError? then Goto(r', w, AfterAdd(r.stages[w])) else r'
  }

  function BodyOp(job: Job, r: Run, w: Work): Run
    requires At(r.group, w, Body) && w in r.stages && InRange(r, w)
  {
    match r.stages[w]
    case Checking(_) => r
    case CheckAdds => r
    case LoadStages => Goto(r, w, LoadDetects).(staged := true)
    case LoadDetects => Goto(r, w, LoadWrites).(original := if job.detected.Some? then job.detected.value else r.original)
    case LoadWrites => Goto(r, w, LoadPushes(0)).(tree := r.tree[Original(r.original) := File(job.data)])
    case LoadPushes(k) =>
      if k < |job.sizes| then Goto(r, w, LoadPushes(k + 1)).(dims := r.dims + [Dim(job.sizes[k], 0, [])])
      else Goto(r, w, LoadAdds(0))
    case LoadAdds(k) => Goto(r, w, Ended)
    case ResizeScales =>
      if !w.Resize? then r else
      var d := r.dims[w.index];
      Goto(r, w, ResizeMakesFolder).(dims := r.dims[w.index := d.(height := job.thumbnail(d.width))])
    case ResizeMakesFolder =>
      if !w.Resize? then r else
      var d := r.dims[w.index];
      var p := Sized(d.width, d.height);
      // create_directory does nothing when the folder exists
      Goto(r, w, ResizeLists(0)).(tree := if p in r.tree then r.tree else r.tree[p := Folder])
    case ResizeLists(k) =>
      if !w.Resize? then r else
      var d, listed := r.dims[w.index], job.formats(r.original);
      if k < |listed|
      then Goto(r, w, ResizeLists(k + 1)).(dims := r.dims[w.index := d.(formats := d.formats + [listed[k]])])
      else Goto(r, w, ResizeAdds(0))
    case ResizeAdds(k) => Goto(r, w, Ended)
    case SaveEncodes =>
      if !w.Save? then r else
      var d := r.dims[w.index];
      Goto(r, w, SaveWrites(job.encode(d.width, d.formats[w.format])))
    case SaveWrites(content) =>
      if !w.Save? then r else
      var d := r.dims[w.index];
      // opening a file whose folder is missing fails, and create_file throws
      if Sized(d.width, d.height) !in r.tree then r.(group := Step(r.group, Throw(w))) else
      Goto(r, w, Ended).(tree := r.tree[Variant(d.width, d.height, d.formats[w.format]) := File(content)])
    case Ended => r.(group := Step(r.group, Return(w)))
  }

  predicate LegalRun(job: Job, r: Run, acts: seq<Act>)
    decreases |acts|, 0
  {
    acts == [] || (LegalRun(job, r, acts[..|acts| - 1]) && ActEnabled(job, EndOf(job, r, acts[..|acts| - 1]), acts[|acts| - 1]))
  }

  function EndOf(job: Job, r: Run, acts: seq<Act>): Run
    requires LegalRun(job, r, acts)
    decreases |acts|, 1
  {
    if acts == [] then r else Perform(job, EndOf(job, r, acts[..|acts| - 1]), acts[|acts| - 1])
  }

  // ---------------------------------------------------------------- the sequential program

  /** What the staged folder may hold at a path, whatever the order of the tasks. */
  predicate Expects(job: Job, p: Path) {
    match p
    case Original(e) => e == job.Format()
    case Sized(w, h) => w in job.sizes && h == job.thumbnail(w)
    case Variant(w, h, e) => w in job.sizes && h == job.thumbnail(w) && e in job.Formats()
  }

  function NodeAt(job: Job, p: Path): Node {
    match p
    case Original(e) => File(job.data)
    case Sized(w, h) => Folder
    case Variant(w, h, e) => File(job.encode(w, e))
  }

  /** The files of the first `n` formats of one width, saved one after the other. */
  function SaveAll(job: Job, tree: Tree, w: nat, n: nat): Tree
    requires n <= |job.Formats()|
  {
    if n == 0 then tree else
    var f := job.Formats()[n - 1];
    SaveAll(job, tree, w, n - 1)[Variant(w, job.thumbnail(w), f) := File(job.encode(w, f))]
  }

  /** The staged folder after the first `n` widths of the sequential program. */
  function TreeOf(job: Job, n: nat): Tree
    requires n <= |job.sizes|
  {
    if n == 0 then map[Original(job.Format()) := File(job.data)] else
    var w := job.sizes[n - 1];
    SaveAll(job, TreeOf(job, n - 1)[Sized(w, job.thumbnail(w)) := Folder], w, |job.Formats()|)
  }

  function DimsOf(job: Job): seq<Dim> {
    seq(|job.sizes|, i requires 0 <= i < |job.sizes| => Dim(job.sizes[i], job.thumbnail(job.sizes[i]), job.Formats()))
  }
}
