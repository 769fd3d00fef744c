/** Any number of staged folders, staged, committed and destroyed in any interleaving: given
    fresh names, each ends up either moved whole to the data directory or removed. */
module Staging {
  import opened Fanout
  import opened Disks
  import opened StorageFs

  /** The life of one staged folder: being filled; its commit, on a copy of the object, before
      and after the rename; after the copy is gone; and after its own destructor. */
  datatype Phase = Open | Copied | Renamed(ok: bool) | Left(moved: bool) | Destroyed(moved: bool)

  /** `tree` is history: what was written into the folder. */
  datatype Handle = Handle(path: Location, target: Location, phase: Phase, tree: Nodes)

  datatype Store = Store(nodes: Nodes, handles: seq<Handle>)

  datatype Event =
    | Create(folder: string, random: string)
    | AddFile(handle: nat, name: Location, content: Bytes)
    | AddFolder(handle: nat, name: Location)
    | BeginCommit(handle: nat)
    | Rename(handle: nat)
    | DropCopy(handle: nat)
    | Destroy(handle: nat)

  /** The two directories, neither inside the other. */
  datatype Dirs = Dirs(temp: Location, data: Location)

  predicate Valid(dirs: Dirs) {
    !Below(dirs.temp, dirs.data) && !Below(dirs.data, dirs.temp)
  }

  predicate IsLive(h: Handle) {
    !h.phase.Destroyed?
  }

  predicate IsFree(d: Nodes, p: Location) {
    forall q | q in d :: !Below(p, q)
  }

  /** Something has been written into the folder. */
  predicate HasContent(h: Handle) {
    exists r | r in h.tree :: r != []
  }

  /** Where the code lets each step happen; a name is fresh if no folder and no live object
      has it, and a commit is made of a folder that holds the original. */
  predicate Enabled(dirs: Dirs, s: Store, e: Event) {
    match e
    case Create(folder, random) =>
      var p := dirs.temp + [folder + random];
      CreateDirectory(s.nodes, p).Some? && IsFree(s.nodes, p)
      && forall i | 0 <= i < |s.handles| :: IsLive(s.handles[i]) ==> s.handles[i].path != p
    case AddFile(i, name, content) => i < |s.handles| && s.handles[i].phase.Open? && name != []
    case AddFolder(i, name) => i < |s.handles| && s.handles[i].phase.Open? && name != []
    case BeginCommit(i) => i < |s.handles| && s.handles[i].phase.Open? && HasContent(s.handles[i])
    case Rename(i) => i < |s.handles| && s.handles[i].phase.Copied?
    case DropCopy(i) => i < |s.handles| && s.handles[i].phase.Renamed?
    case Destroy(i) => i < |s.handles| && (s.handles[i].phase.Open? || s.handles[i].phase.Left?)
  }

  function Put(s: Store, i: nat, h: Handle): Store
    requires i < |s.handles|
  {
    s.(handles := s.handles[i := h])
  }

  function Step(dirs: Dirs, s: Store, e: Event): Store
    requires Enabled(dirs, s, e)
  {
    match e
    case Create(folder, random) =>
      var p := dirs.temp + [folder + random];
      Store(CreateDirectory(s.nodes, p).value, s.handles + [Handle(p, dirs.data + [folder], Open, map[[] := Folder])])
    case AddFile(i, name, content) =>
      var h := s.handles[i];
      var r := CreateFile(s.nodes, h.path + name, content);
      if r.None? then s else Put(s, i, h.(tree := h.tree[name := File(content)])).(nodes := r.value)
    case AddFolder(i, name) =>
      var h := s.handles[i];
      var r := CreateDirectory(s.nodes, h.path + name);
      if r.None? || h.path + name in s.nodes then s
      else Put(s, i, h.(tree := h.tree[name := Folder])).(nodes := r.value)
    case BeginCommit(i) => Put(s, i, s.handles[i].(phase := Copied))
    case Rename(i) =>
      var h := s.handles[i];
      var ok := CanRename(s.nodes, h.path, h.target);
      Put(s, i, h.(phase := Renamed(ok))).(nodes := if ok then Disks.Renamed(s.nodes, h.path, h.target) else s.nodes)
    case DropCopy(i) =>
      // the copy cleans up unless its rename succeeded
      var h := s.handles[i];
      Put(s, i, h.(phase := Left(h.phase.ok))).(nodes := if h.phase.ok then s.nodes else RemoveAll(s.nodes, h.path))
    case Destroy(i) =>
      // the original always cleans up
      var h := s.handles[i];
      Put(s, i, h.(phase := Destroyed(h.phase.Left? && h.phase.moved))).(nodes := RemoveAll(s.nodes, h.path))
  }

  predicate Legal(dirs: Dirs, s: Store, run: seq<Event>)
    decreases |run|, 0
  {
    run == [] || (Legal(dirs, s, run[..|run| - 1]) && Enabled(dirs, Final(dirs, s, run[..|run| - 1]), run[|run| - 1]))
  }

  function Final(dirs: Dirs, s: Store, run: seq<Event>): Store
    requires Legal(dirs, s, run)
    decreases |run|, 1
  {
    if run == [] then s else Step(dirs, Final(dirs, s, run[..|run| - 1]), run[|run| - 1])
  }

  // ---------------------------------------------------------------- invariant

  predicate IsStaged(h: Handle) {
    h.phase.Open? || h.phase.Copied? || h.phase == Renamed(false)
  }

  predicate IsMoved(h: Handle) {
    h.phase == Renamed(true) || h.phase == Left(true) || h.phase == Destroyed(true)
  }

  /** `p` is an entry of the directory `dir`. */
  predicate InDir(dir: Location, p: Location) {
    |p| == |dir| + 1 && p[..|dir|] == dir
  }

  /** What is on the disk for a folder: all of it staged and none at its target, or the reverse,
      or nothing. */
  ghost predicate HandleOk(dirs: Dirs, d: Nodes, h: Handle) {
    && InDir(dirs.temp, h.path) && InDir(dirs.data, h.target)
    && [] in h.tree
    && (!h.phase.Open? && !(h.phase == Destroyed(false)) ==> HasContent(h))
    && (IsStaged(h) ==> Stores(d, h.path, h.tree))
    && (IsLive(h) && !IsStaged(h) ==> Stores(d, h.path, map[]))
    && (IsMoved(h) ==> Stores(d, h.target, h.tree))
  }

  ghost predicate Inv(dirs: Dirs, s: Store) {
    && (forall i | 0 <= i < |s.handles| :: HandleOk(dirs, s.nodes, s.handles[i]))
    && (forall i, j | 0 <= i < j < |s.handles| ::
         IsLive(s.handles[i]) && IsLive(s.handles[j]) ==> s.handles[i].path != s.handles[j].path)
  }

  // ---------------------------------------------------------------- places do not touch

  lemma EntriesAreApart(dir: Location, p: Location, q: Location)
    requires InDir(dir, p) && InDir(dir, q) && p != q
    ensures Apart(p, q)
  {
  }

  lemma DirsAreApart(dirs: Dirs, p: Location, q: Location)
    requires Valid(dirs) && InDir(dirs.temp, p) && InDir(dirs.data, q)
    ensures Apart(p, q) && Apart(q, p)
  {
    if |dirs.temp| <= |dirs.data| {
      assert q[..|dirs.temp|] == dirs.data[..|dirs.temp|] == q[..|p|][..|dirs.temp|];
    } else {
      assert p[..|dirs.data|] == dirs.temp[..|dirs.data|];
    }
  }

  /** The two disks differ at most at or below the given places. */
  ghost predicate SameOutside(d: Nodes, d': Nodes, places: set<Location>) {
    forall x: Location :: (forall q | q in places :: !Below(q, x)) ==>
      (x in d <==> x in d') && (x in d ==> d[x] == d'[x])
  }

  lemma OutsideStays(d: Nodes, d': Nodes, places: set<Location>, p: Location, t: Nodes)
    requires SameOutside(d, d', places) && Stores(d, p, t) && forall q | q in places :: Apart(p, q)
    ensures Stores(d', p, t)
  {
    forall r: Location ensures (r in t <==> p + r in d') && (r in t ==> t[r] == d'[p + r]) {
      forall q | q in places ensures !Below(q, p + r) {
        ApartBelow(p, q, r);
      }
    }
  }

  /** A handle none of whose places changed is as it was. */
  lemma HandleStays(dirs: Dirs, d: Nodes, d': Nodes, places: set<Location>, h: Handle)
    requires HandleOk(dirs, d, h) && SameOutside(d, d', places)
    requires IsLive(h) ==> forall q | q in places :: Apart(h.path, q)
    requires IsMoved(h) ==> forall q | q in places :: Apart(h.target, q)
    ensures HandleOk(dirs, d', h)
  {
    hide SameOutside, Stores, Apart;
    if IsStaged(h) { OutsideStays(d, d', places, h.path, h.tree); }
    if IsLive(h) && !IsStaged(h) { OutsideStays(d, d', places, h.path, map[]); }
    if IsMoved(h) { OutsideStays(d, d', places, h.target, h.tree); }
  }

  /** A step at the staged place of handle `i` leaves all other handles as they were. */
  lemma OthersStay(dirs: Dirs, s: Store, d': Nodes, i: nat, j: nat)
    requires Valid(dirs) && Inv(dirs, s) && i < |s.handles| && j < |s.handles| && i != j && IsLive(s.handles[i])
    requires SameOutside(s.nodes, d', {s.handles[i].path})
    ensures HandleOk(dirs, d', s.handles[j])
  {
    var p, h := s.handles[i].path, s.handles[j];
    assert HandleOk(dirs, s.nodes, s.handles[i]) && HandleOk(dirs, s.nodes, h);
    if IsLive(h) {
      if i < j { assert p != h.path; } else { assert h.path != p; }
      EntriesAreApart(dirs.temp, h.path, p);
    }
    DirsAreApart(dirs, p, h.target);
    hide HandleOk, SameOutside, Apart;
    HandleStays(dirs, s.nodes, d', {p}, h);
  }

  /** So it is enough to look at handle `i`. */
  lemma StepAtHandle(dirs: Dirs, s: Store, s': Store, i: nat)
    requires Valid(dirs) && Inv(dirs, s) && i < |s.handles| == |s'.handles| && IsLive(s.handles[i])
    requires SameOutside(s.nodes, s'.nodes, {s.handles[i].path})
    requires s'.handles == s.handles[i := s'.handles[i]] && s'.handles[i].path == s.handles[i].path
    requires HandleOk(dirs, s'.nodes, s'.handles[i])
    ensures Inv(dirs, s')
  {
    hide HandleOk, SameOutside;
    forall j | 0 <= j < |s'.handles| ensures HandleOk(dirs, s'.nodes, s'.handles[j]) {
      if j != i { OthersStay(dirs, s, s'.nodes, i, j); }
    }
  }

  lemma WriteOutside(d: Nodes, p: Location, r: Location, node: Node)
    ensures SameOutside(d, d[p + r := node], {p})
  {
    assert Below(p, p + r);
  }

  lemma RemoveOutside(d: Nodes, p: Location)
    ensures SameOutside(d, RemoveAll(d, p), {p})
  {
  }

  lemma RenameOutside(d: Nodes, from: Location, to: Location)
    ensures SameOutside(d, Disks.Renamed(d, from, to), {from, to})
  {
    forall x: Location | forall q | q in {from, to} :: !Below(q, x)
      ensures (x in d <==> x in Disks.Renamed(d, from, to)) && (x in d ==> d[x] == Disks.Renamed(d, from, to)[x])
    {
      assert !Below(from, x) && !Below(to, x);
      RenamedElsewhere(d, from, to, x);
    }
  }

  // ---------------------------------------------------------------- steps

  lemma CreateKeeps(dirs: Dirs, s: Store, e: Event)
    requires Valid(dirs) && Inv(dirs, s) && e.Create? && Enabled(dirs, s, e)
    ensures Inv(dirs, Step(dirs, s, e))
  {
    var p, s' := dirs.temp + [e.folder + e.random], Step(dirs, s, e);
    assert p + [] == p && p !in s.nodes by { assert Below(p, p); }
    WriteOutside(s.nodes, p, [], Folder);
    assert s'.nodes == s.nodes[p := Folder];
    forall j | 0 <= j < |s.handles| ensures HandleOk(dirs, s'.nodes, s.handles[j]) {
      var h := s.handles[j];
      if IsLive(h) { EntriesAreApart(dirs.temp, h.path, p); }
      DirsAreApart(dirs, p, h.target);
      hide HandleOk, SameOutside, Apart;
      HandleStays(dirs, s.nodes, s'.nodes, {p}, h);
    }
    NewFolder(s.nodes, p);
    assert HandleOk(dirs, s'.nodes, s'.handles[|s.handles|]);
  }

  lemma NewFolder(d: Nodes, p: Location)
    requires IsFree(d, p)
    ensures Stores(d[p := Folder], p, map[[] := Folder])
  {
    forall r: Location ensures p + r in d[p := Folder] <==> r == [] {
      assert Below(p, p + r);
      if r == [] { assert p + r == p; }
    }
    assert p + [] == p;
  }

  lemma WriteKeeps(dirs: Dirs, s: Store, i: nat, name: Location, node: Node)
    requires Valid(dirs) && Inv(dirs, s) && i < |s.handles| && s.handles[i].phase.Open?
    ensures var h := s.handles[i];
      Inv(dirs, Put(s, i, h.(tree := h.tree[name := node])).(nodes := s.nodes[h.path + name := node]))
  {
    var h := s.handles[i];
    var s' := Put(s, i, h.(tree := h.tree[name := node])).(nodes := s.nodes[h.path + name := node]);
    assert HandleOk(dirs, s.nodes, h);
    WriteOutside(s.nodes, h.path, name, node);
    WriteInside(s.nodes, h.path, h.tree, name, node);
    hide SameOutside, Stores;
    StepAtHandle(dirs, s, s', i);
  }

  /** Nothing is left of a staged folder, and what has been moved is not touched. */
  lemma RemovedHandle(dirs: Dirs, d: Nodes, h: Handle, phase: Phase)
    requires Valid(dirs) && HandleOk(dirs, d, h) && IsLive(h)
    requires phase == Left(false) || phase == Destroyed(false) || (phase == Destroyed(true) && h.phase == Left(true))
    requires phase.Left? ==> h.phase.Renamed?
    ensures HandleOk(dirs, RemoveAll(d, h.path), h.(phase := phase))
  {
    hide Stores, RemoveAll, Apart;
    RemoveLeavesNothing(d, h.path);
    DirsAreApart(dirs, h.path, h.target);
    if IsMoved(h) { RemoveKeepsApart(d, h.target, h.tree, h.path); }
    hide InDir, HasContent, Valid;
  }

  lemma RemoveKeeps(dirs: Dirs, s: Store, i: nat, phase: Phase)
    requires Valid(dirs) && Inv(dirs, s) && i < |s.handles| && IsLive(s.handles[i])
    requires phase == Left(false) || phase == Destroyed(false) || (phase == Destroyed(true) && s.handles[i].phase == Left(true))
    requires phase.Left? ==> s.handles[i].phase.Renamed?
    ensures Inv(dirs, Put(s, i, s.handles[i].(phase := phase)).(nodes := RemoveAll(s.nodes, s.handles[i].path)))
  {
    var h := s.handles[i];
    var s' := Put(s, i, h.(phase := phase)).(nodes := RemoveAll(s.nodes, h.path));
    assert HandleOk(dirs, s.nodes, h);
    RemovedHandle(dirs, s.nodes, h, phase);
    RemoveOutside(s.nodes, h.path);
    hide SameOutside, Stores, RemoveAll, HandleOk;
    StepAtHandle(dirs, s, s', i);
  }

  /** A rename that succeeds cannot hit a committed folder, because that is not empty. */
  lemma TargetsDiffer(dirs: Dirs, d: Nodes, h: Handle, g: Handle)
    requires HandleOk(dirs, d, g) && IsMoved(g) && CanRename(d, h.path, h.target)
    ensures g.target != h.target
  {
    var r :| r in g.tree && r != [];
    assert g.target + [] == g.target && g.target in d;
    assert g.target + r in d && Below(g.target, g.target + r) && g.target + r != g.target;
  }

  lemma RenamedHandle(dirs: Dirs, d: Nodes, h: Handle)
    requires Valid(dirs) && HandleOk(dirs, d, h) && h.phase.Copied? && CanRename(d, h.path, h.target)
    ensures HandleOk(dirs, Disks.Renamed(d, h.path, h.target), h.(phase := Renamed(true)))
  {
    DirsAreApart(dirs, h.path, h.target);
    RenameMoves(d, h.path, h.target, h.tree);
    hide Disks.Renamed, Stores, CanRename;
  }

  lemma RenameSparesOther(dirs: Dirs, d: Nodes, h: Handle, g: Handle)
    requires Valid(dirs) && HandleOk(dirs, d, h) && HandleOk(dirs, d, g) && CanRename(d, h.path, h.target)
    requires IsLive(g) ==> g.path != h.path
    ensures HandleOk(dirs, Disks.Renamed(d, h.path, h.target), g)
  {
    hide *;
    RenameOutside(d, h.path, h.target);
    if IsMoved(g) { TargetsDiffer(dirs, d, h, g); }
    PlacesAreApart(dirs, d, h, g);
    HandleStays(dirs, d, Disks.Renamed(d, h.path, h.target), {h.path, h.target}, g);
  }

  lemma PlacesAreApart(dirs: Dirs, d: Nodes, h: Handle, g: Handle)
    requires Valid(dirs) && HandleOk(dirs, d, h) && HandleOk(dirs, d, g)
    ensures IsLive(g) && g.path != h.path ==> Apart(g.path, h.path) && Apart(g.path, h.target)
    ensures IsMoved(g) && g.target != h.target ==> Apart(g.target, h.target) && Apart(g.target, h.path)
  {
    DirsAreApart(dirs, g.path, h.target);
    DirsAreApart(dirs, h.path, g.target);
    if g.path != h.path { EntriesAreApart(dirs.temp, g.path, h.path); }
    if g.target != h.target { EntriesAreApart(dirs.data, g.target, h.target); }
  }

  lemma RenameKeeps(dirs: Dirs, s: Store, i: nat)
    requires Valid(dirs) && Inv(dirs, s) && Enabled(dirs, s, Rename(i))
    requires CanRename(s.nodes, s.handles[i].path, s.handles[i].target)
    ensures Inv(dirs, Step(dirs, s, Rename(i)))
  {
    var h, s' := s.handles[i], Step(dirs, s, Rename(i));
    RenamedHandle(dirs, s.nodes, h);
    hide Disks.Renamed, HandleOk, CanRename;
    forall j | 0 <= j < |s'.handles| ensures HandleOk(dirs, s'.nodes, s'.handles[j]) {
      if j < i { assert s.handles[j].path != h.path || !IsLive(s.handles[j]); }
      if i < j { assert h.path != s.handles[j].path || !IsLive(s.handles[j]); }
      if j != i { RenameSparesOther(dirs, s.nodes, h, s.handles[j]); }
    }
  }

  lemma StepKeepsInv(dirs: Dirs, s: Store, e: Event)
    requires Valid(dirs) && Inv(dirs, s) && Enabled(dirs, s, e)
    ensures Inv(dirs, Step(dirs, s, e))
  {
    match e
    case Create(folder, random) => CreateKeeps(dirs, s, e);
    case AddFile(i, name, content) => WriteKeeps(dirs, s, i, name, File(content));
    case AddFolder(i, name) => WriteKeeps(dirs, s, i, name, Folder);
    case BeginCommit(i) => PhaseKeeps(dirs, s, i, Copied);
    case Rename(i) =>
      if CanRename(s.nodes, s.handles[i].path, s.handles[i].target) {
        RenameKeeps(dirs, s, i);
      } else {
        PhaseKeeps(dirs, s, i, Renamed(false));
      }
    case DropCopy(i) =>
      if s.handles[i].phase.ok { PhaseKeeps(dirs, s, i, Left(true)); } else { RemoveKeeps(dirs, s, i, Left(false)); }
    case Destroy(i) => RemoveKeeps(dirs, s, i, Destroyed(s.handles[i].phase.Left? && s.handles[i].phase.moved));
  }

  lemma PhaseKeeps(dirs: Dirs, s: Store, i: nat, phase: Phase)
    requires Inv(dirs, s) && i < |s.handles| && (HasContent(s.handles[i]) || phase.Open?)
    requires var from := s.handles[i].phase;
      (from.Open? && phase.Copied?) || (from.Copied? && phase == Renamed(false)) || (from == Renamed(true) && phase == Left(true))
    ensures Inv(dirs, Put(s, i, s.handles[i].(phase := phase)))
  {
    assert HandleOk(dirs, s.nodes, s.handles[i]);
    hide Stores;
  }

  // ---------------------------------------------------------------- theorems

  lemma {:induction false} RunsKeepInv(dirs: Dirs, d: Nodes, run: seq<Event>)
    requires Valid(dirs) && Legal(dirs, Store(d, []), run)
    ensures Inv(dirs, Final(dirs, Store(d, []), run))
  {
    hide Inv, Step, Enabled, Valid;
    if run == [] {
      assert Inv(dirs, Store(d, [])) by { NothingStaged(dirs, d); }
    } else {
      var before := run[..|run| - 1];
      RunsKeepInv(dirs, d, before);
      StepKeepsInv(dirs, Final(dirs, Store(d, []), before), run[|run| - 1]);
    }
  }

  lemma NothingStaged(dirs: Dirs, d: Nodes)
    ensures Inv(dirs, Store(d, []))
  {
  }

  /** In every run each staged folder is, whole, in exactly one place: under its temporary name,
      or, moved, under its final name; or it has been removed. */
  lemma StagingConservation(dirs: Dirs, d: Nodes, run: seq<Event>, i: nat)
    requires Valid(dirs) && Legal(dirs, Store(d, []), run) && i < |Final(dirs, Store(d, []), run).handles|
    ensures var s := Final(dirs, Store(d, []), run);
      var h := s.handles[i];
      && !(IsStaged(h) && IsMoved(h))
      && (IsStaged(h) ==> Stores(s.nodes, h.path, h.tree))
      && (IsMoved(h) ==> Stores(s.nodes, h.target, h.tree) && (IsLive(h) ==> Stores(s.nodes, h.path, map[])))
      && (!IsStaged(h) && !IsMoved(h) && IsLive(h) ==> Stores(s.nodes, h.path, map[]))
  {
    RunsKeepInv(dirs, d, run);
    hide Stores;
    assert HandleOk(dirs, Final(dirs, Store(d, []), run).nodes, Final(dirs, Store(d, []), run).handles[i]);
  }

  /** `p` is an entry of the data directory with something in it. */
  ghost predicate IsData(dirs: Dirs, d: Nodes, p: Location, t: Nodes) {
    InDir(dirs.data, p) && Stores(d, p, t) && [] in t && exists r :: r in t && r != []
  }

  lemma DataOutlivesRename(dirs: Dirs, d: Nodes, h: Handle, p: Location, t: Nodes)
    requires Valid(dirs) && HandleOk(dirs, d, h) && CanRename(d, h.path, h.target) && IsData(dirs, d, p, t)
    ensures IsData(dirs, Disks.Renamed(d, h.path, h.target), p, t)
  {
    var r :| r in t && r != [];
    assert p + [] == p && p in d && p + r in d && Below(p, p + r) && p + r != p;
    assert p != h.target;
    EntriesAreApart(dirs.data, p, h.target);
    DirsAreApart(dirs, h.path, p);
    RenameOutside(d, h.path, h.target);
    hide HandleOk, Disks.Renamed, SameOutside, Apart;
    OutsideStays(d, Disks.Renamed(d, h.path, h.target), {h.path, h.target}, p, t);
  }

  /** No step, in particular no destructor of a folder or of its copy, touches what is in the
      data directory. */
  lemma StepKeepsData(dirs: Dirs, s: Store, e: Event, p: Location, t: Nodes)
    requires Valid(dirs) && Inv(dirs, s) && Enabled(dirs, s, e) && IsData(dirs, s.nodes, p, t)
    ensures IsData(dirs, Step(dirs, s, e).nodes, p, t)
  {
    if e.Create? {
      var q := dirs.temp + [e.folder + e.random];
      DirsAreApart(dirs, q, p);
      assert q + [] == q;
      WriteKeepsApart(s.nodes, p, t, q, [], Folder);
    } else {
      var h := s.handles[e.handle];
      assert HandleOk(dirs, s.nodes, h);
      DirsAreApart(dirs, h.path, p);
      match e
      case AddFile(i, name, content) => WriteKeepsApart(s.nodes, p, t, h.path, name, File(content));
      case AddFolder(i, name) => WriteKeepsApart(s.nodes, p, t, h.path, name, Folder);
      case BeginCommit(i) =>
      case Rename(i) => if CanRename(s.nodes, h.path, h.target) { DataOutlivesRename(dirs, s.nodes, h, p, t); }
      case DropCopy(i) => RemoveKeepsApart(s.nodes, p, t, h.path);
      case Destroy(i) => RemoveKeepsApart(s.nodes, p, t, h.path);
    }
  }

  /** What is in the data directory stays there, unchanged, for ever. */
  lemma {:induction false} DataIsForever(dirs: Dirs, s: Store, run: seq<Event>, p: Location, t: Nodes)
    requires Valid(dirs) && Inv(dirs, s) && Legal(dirs, s, run) && IsData(dirs, s.nodes, p, t)
    ensures Inv(dirs, Final(dirs, s, run)) && IsData(dirs, Final(dirs, s, run).nodes, p, t)
  {
    hide Inv, Step, Enabled, Valid, IsData;
    if run == [] {
    } else {
      var before := run[..|run| - 1];
      DataIsForever(dirs, s, before, p, t);
      StepKeepsInv(dirs, Final(dirs, s, before), run[|run| - 1]);
      StepKeepsData(dirs, Final(dirs, s, before), run[|run| - 1], p, t);
    }
  }

  /** Only a rename that succeeds changes the data directory: a folder that is never committed
      leaves no trace in it. */
  lemma OnlyRenamesChangeData(dirs: Dirs, s: Store, e: Event, x: Location)
    requires Valid(dirs) && Inv(dirs, s) && Enabled(dirs, s, e) && Below(dirs.data, x)
    requires e.Rename? ==> !CanRename(s.nodes, s.handles[e.handle].path, s.handles[e.handle].target)
    ensures x in Step(dirs, s, e).nodes <==> x in s.nodes
    ensures x in s.nodes ==> Step(dirs, s, e).nodes[x] == s.nodes[x]
  {
    if e.Create? {
      DataIsNotTemp(dirs, dirs.temp + [e.folder + e.random], x);
    } else {
      var h := s.handles[e.handle];
      assert HandleOk(dirs, s.nodes, h);
      DataIsNotTemp(dirs, h.path, x);
      match e
      case AddFile(i, name, content) => assert Below(h.path, h.path + name);
      case AddFolder(i, name) => assert Below(h.path, h.path + name);
      case BeginCommit(i) =>
      case Rename(i) =>
      case DropCopy(i) =>
      case Destroy(i) =>
    }
  }

  lemma DataIsNotTemp(dirs: Dirs, p: Location, x: Location)
    requires Valid(dirs) && InDir(dirs.temp, p) && Below(dirs.data, x)
    ensures !Below(p, x) && x != p
  {
    if |dirs.temp| <= |dirs.data| <= |x| {
      assert x[..|dirs.data|][..|dirs.temp|] == x[..|dirs.temp|];
      assert |p| <= |x| ==> x[..|p|][..|dirs.temp|] == x[..|dirs.temp|];
    } else if |p| <= |x| {
      assert x[..|p|][..|dirs.data|] == x[..|dirs.data|];
      assert p[..|dirs.data|] == dirs.temp[..|dirs.data|];
    }
  }
}
