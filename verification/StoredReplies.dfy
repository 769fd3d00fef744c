/** From the owner's tasks to the reply of a later upload: what any schedule of the owner writes to
    the disk, what the commit makes of it, and what `find_existing_data` then reads. */
module StoredReplies {
  import opened TaskGroups
  import opened Fanout
  import opened FanoutTheorems
  import opened Server
  import ServerInvariant
  import ServerTheorems
  import opened Disks
  import StorageFs
  import ExistingData
  import opened RoundTrip

  // ---------------------------------------------------------------- what a run writes to the disk

  /** The entry of the staged folder that the next operation of a body creates, if any. */
  function WriteOf(job: Job, r: Run, act: Act): Option<(Path, Node)>
    requires ActEnabled(job, r, act)
  {
    if !act.Op? || NextChild(r, act.task).Some? then None else
    match r.stages[act.task]
    case LoadWrites => Some((Original(r.original), File(job.data)))
    case ResizeMakesFolder =>
      if !act.task.Resize? then None else
      var d := r.dims[act.task.index];
      if Sized(d.width, d.height) in r.tree then None else Some((Sized(d.width, d.height), Folder))
    case SaveWrites(content) =>
      if !act.task.Save? then None else
      var d := r.dims[act.task.index];
      if Sized(d.width, d.height) !in r.tree then None
      else Some((Variant(d.width, d.height, d.formats[act.task.format]), File(content)))
    case _ => None
  }

  lemma TreeAfter(job: Job, r: Run, act: Act)
    requires ActEnabled(job, r, act)
    ensures Perform(job, r, act).tree ==
      if WriteOf(job, r, act).Some? then r.tree[WriteOf(job, r, act).value.0 := WriteOf(job, r, act).value.1] else r.tree
  {
    hide Step;
  }

  /** The disk after a run that began with an empty staged folder at `top`. */
  function DiskAfter(job: Job, acts: seq<Act>, d: Nodes, top: Location, filename: string): Nodes
    requires LegalRun(job, InitRun(job), acts)
  {
    if acts == [] then d[top := Folder] else
    var before := acts[..|acts| - 1];
    var d' := DiskAfter(job, before, d, top, filename);
    match WriteOf(job, EndOf(job, InitRun(job), before), acts[|acts| - 1])
    case None => d'
    case Some((p, node)) => d'[top + NameOf(filename, p) := node]
  }

  /** At every moment of every run the staged folder on disk holds the run's tree. */
  lemma {:induction false} RunIsRendered(job: Job, acts: seq<Act>, d: Nodes, top: Location, filename: string)
    requires LegalRun(job, InitRun(job), acts) && forall q | q in d :: !Below(top, q)
    ensures Rendered(DiskAfter(job, acts, d, top, filename), top, filename, EndOf(job, InitRun(job), acts).tree)
  {
    hide Rendered, Perform, ActEnabled, WriteOf, NameOf;
    if acts == [] {
      NewFolderIsRendered(d, top, filename);
    } else {
      var before, act := acts[..|acts| - 1], acts[|acts| - 1];
      var r := EndOf(job, InitRun(job), before);
      RunIsRendered(job, before, d, top, filename);
      TreeAfter(job, r, act);
      if WriteOf(job, r, act).Some? {
        var (p, node) := WriteOf(job, r, act).value;
        WriteKeepsRendered(DiskAfter(job, before, d, top, filename), top, filename, r.tree, p, node);
      }
    }
  }

  /** Whatever the schedule of the owner's tasks, and in whatever order the committed folder is
      listed afterwards, a later upload reads back the owner's file name, extension, widths,
      heights and sorted formats exactly if the owner's job is readable. */
  lemma AnyScheduleIsReadBack(
      job: Job, acts: seq<Act>, d: Nodes, from: Location, to: Location, filename: string, listing: seq<StorageFs.Entry>)
    requires Fits(job) && LegalRun(job, InitRun(job), acts)
    requires var r := EndOf(job, InitRun(job), acts); r.isNew && OnFinish in r.group.callbacks
    requires (forall q | q in d :: !Below(from, q)) && Apart(from, to)
    requires StorageFs.Lists(Renamed(DiskAfter(job, acts, d, from, filename), from, to), to, listing)
    ensures Recovers(job, filename, ExistingData.FindSpec(Option.Some(listing))) <==> Readable(job)
  {
    hide Rendered, Recovers, Readable, StorageFs.Lists, TreeOf, DiskAfter;
    EveryScheduleGivesTheSameResult(job, acts);
    RunIsRendered(job, acts, d, from, filename);
    var d1 := DiskAfter(job, acts, d, from, filename);
    RenameKeepsRendered(d1, from, to, filename, TreeOf(job, |job.sizes|));
    RoundTripIsExact(job, Renamed(d1, from, to), to, filename, listing);
  }

  // ---------------------------------------------------------------- no write is refused

  lemma {:induction false} TopStays(job: Job, acts: seq<Act>, d: Nodes, top: Location, filename: string)
    requires LegalRun(job, InitRun(job), acts)
    ensures var d' := DiskAfter(job, acts, d, top, filename); top in d' && d'[top] == Folder
  {
    hide Perform, ActEnabled, WriteOf;
    if acts == [] {
    } else {
      TopStays(job, acts[..|acts| - 1], d, top, filename);
    }
  }

  /** What the parent folder of an entry is, once the parent has been written. */
  lemma ParentIsThere(d: Nodes, top: Location, filename: string, tree: Tree, p: Path)
    requires top in d && d[top] == Folder && Rendered(d, top, filename, tree)
    requires p.Variant? ==> Sized(p.width, p.height) in tree && tree[Sized(p.width, p.height)] == Folder
    ensures ParentExists(d, top + NameOf(filename, p))
  {
    hide SizeName, FileName;
    var q := top + NameOf(filename, p);
    match p
    case Original(e) => hide Rendered; assert q[..|q| - 1] == top;
    case Sized(w, h) => hide Rendered; assert q[..|q| - 1] == top;
    case Variant(w, h, e) =>
      var folder := top + NameOf(filename, Sized(w, h));
      assert folder in d && d[folder] == Folder;
      hide Rendered;
      assert q[..|q| - 1] == folder;
  }

  lemma OccupantIs(d: Nodes, top: Location, filename: string, tree: Tree, p: Path)
    requires Rendered(d, top, filename, tree) && top + NameOf(filename, p) in d
    ensures p in tree && d[top + NameOf(filename, p)] == tree[p]
  {
    hide NameOf;
    assert NameOf(filename, p) != [] by { NameIsProper(filename, p); }
    RenderedAt(d, top, filename, tree, NameOf(filename, p));
    var q :| q in tree && NameOf(filename, p) == NameOf(filename, q) && d[top + NameOf(filename, p)] == tree[q];
    NameOfIsInjective(filename, p, q);
  }

  lemma NameIsProper(filename: string, p: Path)
    ensures NameOf(filename, p) != []
  {
  }

  lemma WrittenNode(job: Job, r: Run, act: Act)
    requires RunOk(job, r) && ActEnabled(job, r, act) && WriteOf(job, r, act).Some?
    ensures var (p, node) := WriteOf(job, r, act).value;
      && (node.Folder? <==> p.Sized?)
      && (p in r.tree ==> (r.tree[p].Folder? <==> p.Sized?)) && (p.Sized? ==> p !in r.tree)
      && (p.Variant? ==> Sized(p.width, p.height) in r.tree && r.tree[Sized(p.width, p.height)] == Folder)
  {
    hide RunOk, NextChild;
    var (p, node) := WriteOf(job, r, act).value;
    TreeNodes(job, r, p);
    if p.Variant? { TreeNodes(job, r, Sized(p.width, p.height)); }
  }

  lemma TreeNodes(job: Job, r: Run, p: Path)
    requires RunOk(job, r)
    ensures p in r.tree ==> r.tree[p] == NodeAt(job, p)
  {
  }

  /** Every file and folder that the owner's tasks create can be created where they create it, with
      the effect on the disk that `DiskAfter` records: no run fails at a write. */
  lemma WriteSucceeds(job: Job, acts: seq<Act>, act: Act, d: Nodes, top: Location, filename: string)
    requires Fits(job) && LegalRun(job, InitRun(job), acts) && forall q | q in d :: !Below(top, q)
    requires ActEnabled(job, EndOf(job, InitRun(job), acts), act) && WriteOf(job, EndOf(job, InitRun(job), acts), act).Some?
    ensures var disk, (p, node) := DiskAfter(job, acts, d, top, filename), WriteOf(job, EndOf(job, InitRun(job), acts), act).value;
      var place := top + NameOf(filename, p);
      match node
      case Folder => CreateDirectory(disk, place) == Some(disk[place := Folder])
      case File(content) => CreateFile(disk, place, content) == Some(disk[place := File(content)])
  {
    var r, disk := EndOf(job, InitRun(job), acts), DiskAfter(job, acts, d, top, filename);
    RunsAreOk(job, acts);
    RunIsRendered(job, acts, d, top, filename);
    TopStays(job, acts, d, top, filename);
    WrittenNode(job, r, act);
    hide RunOk, Rendered, DiskAfter, LegalRun, EndOf, ActEnabled, WriteOf, NameOf, ParentExists, Fits;
    var (p, node) := WriteOf(job, r, act).value;
    NameIsProper(filename, p);
    ParentIsThere(disk, top, filename, r.tree, p);
    if top + NameOf(filename, p) in disk { OccupantIs(disk, top, filename, r.tree, p); }
  }

  // ---------------------------------------------------------------- whose result it is

  /** `q` is the upload whose folder answered `p`. */
  ghost predicate Answers(uploads: seq<Upload>, s: State, p: nat, q: nat) {
    && p < |uploads| == |s.procs| && q < |uploads| && uploads[q].hash == uploads[p].hash
    && s.procs[q].run.isNew && Succeeded(s.procs[q])
    && s.procs[p].answer == Some(TreeOf(uploads[q].job, |uploads[q].job.sizes|))
  }

  /** In every reachable state of the server, an upload that was answered from the data directory
      was answered from the complete result of one other upload of its hash, and reads that
      upload's data back exactly if it is readable. */
  lemma AnsweredByOwner(uploads: seq<Upload>, s: State, p: nat)
    requires ServerInvariant.AllFit(uploads) && ServerTheorems.Reachable(uploads, s)
    requires p < |uploads| == |s.procs| && s.procs[p].answer.Some?
    ensures exists q :: q != p && Answers(uploads, s, p, q)
    ensures forall q: nat, d, top, filename, listing |
      && Answers(uploads, s, p, q) && Rendered(d, top, filename, s.procs[p].answer.value)
      && StorageFs.Lists(d, top, listing) ::
      Recovers(uploads[q].job, filename, ExistingData.FindSpec(Option.Some(listing))) <==> Readable(uploads[q].job)
  {
    AnswerIsStored(uploads, s, p);
    var q := s.author[uploads[p].hash];
    assert Answers(uploads, s, p, q);
    hide ServerInvariant.AllFit, ServerTheorems.Reachable, Rendered, Recovers, Readable, StorageFs.Lists, TreeOf;
    forall q: nat, d, top, filename, listing |
      && Answers(uploads, s, p, q) && Rendered(d, top, filename, s.procs[p].answer.value)
      && StorageFs.Lists(d, top, listing)
      ensures Recovers(uploads[q].job, filename, ExistingData.FindSpec(Option.Some(listing))) <==> Readable(uploads[q].job)
    {
      RoundTripIsExact(uploads[q].job, d, top, filename, listing);
    }
  }

  lemma AnswerIsStored(uploads: seq<Upload>, s: State, p: nat)
    requires ServerInvariant.AllFit(uploads) && ServerTheorems.Reachable(uploads, s)
    requires p < |uploads| == |s.procs| && s.procs[p].answer.Some?
    ensures uploads[p].hash in s.author && s.author[uploads[p].hash] != p
    ensures Answers(uploads, s, p, s.author[uploads[p].hash])
  {
    hide RunOk, ServerInvariant.AllFit, ServerTheorems.Reachable;
    ServerTheorems.ReachableIsSafe(uploads, s);
    assert ServerInvariant.ProcOk(uploads, s, p);
    assert uploads[p].hash in s.data;
  }

  // ---------------------------------------------------------------- the data directory on disk

  ghost predicate HasTree(d: Nodes, top: Location, tree: Tree) {
    exists filename :: Rendered(d, top, filename, tree)
  }

  /** The data directory has one folder for each hash stored, with that hash's tree in it. */
  ghost predicate Holds(d: Nodes, dataDir: Location, data: map<Hash, Tree>) {
    forall h :: (h in data <==> dataDir + [h] in d)
                && (h in data ==> HasTree(d, dataDir + [h], data[h]))
  }

  lemma EmptyDirectoryHolds(d: Nodes, dataDir: Location)
    requires forall q | q in d && Below(dataDir, q) :: q == dataDir
    ensures Holds(d, dataDir, map[])
  {
    forall h: Hash ensures dataDir + [h] !in d {
      assert Below(dataDir, dataDir + [h]) && dataDir + [h] != dataDir;
    }
  }

  lemma SameBelow(d: Nodes, d': Nodes, top: Location, filename: string, tree: Tree)
    requires Rendered(d, top, filename, tree)
    requires forall r: Location :: (top + r in d' <==> top + r in d) && (top + r in d ==> d'[top + r] == d[top + r])
    ensures Rendered(d', top, filename, tree)
  {
    hide NameOf;
    forall x | x in d' && Below(top, x) && x != top ensures exists p :: p in tree && x == top + NameOf(filename, p) {
      BelowSplits(top, x);
      assert top + x[|top|..] in d;
    }
  }

  lemma RenameKeepsOther(d: Nodes, from: Location, to: Location, top: Location, filename: string, tree: Tree)
    requires Rendered(d, top, filename, tree) && Apart(from, top) && Apart(to, top)
    ensures Rendered(Renamed(d, from, to), top, filename, tree)
  {
    hide Renamed, Rendered;
    var d' := Renamed(d, from, to);
    forall r: Location ensures (top + r in d' <==> top + r in d) && (top + r in d ==> d'[top + r] == d[top + r]) {
      ApartBelow(top, from, r);
      ApartBelow(top, to, r);
      RenamedElsewhere(d, from, to, top + r);
    }
    SameBelow(d, d', top, filename, tree);
  }

  /** A commit of the owner adds the folder of its hash, and keeps the others. */
  lemma CommitKeepsHolds(
      d: Nodes, dataDir: Location, data: map<Hash, Tree>, from: Location, h: Hash, filename: string, tree: Tree)
    requires Holds(d, dataDir, data) && h !in data
    requires from in d && Rendered(d, from, filename, tree) && Apart(from, dataDir)
    ensures Holds(Renamed(d, from, dataDir + [h]), dataDir, data[h := tree])
  {
    var to := dataDir + [h];
    var d' := Renamed(d, from, to);
    ApartFromEntry(from, dataDir, h);
    RenameKeepsRendered(d, from, to, filename, tree);
    assert to in d' by {
      RenamedAt(d, from, to, []);
      assert to + [] == to && from + [] == from;
    }
    hide Rendered, Renamed, Apart;
    forall g ensures (g in data[h := tree] <==> dataDir + [g] in d')
      && (g in data[h := tree] ==> HasTree(d', dataDir + [g], data[h := tree][g]))
    {
      if g != h {
        OtherEntryStays(d, from, dataDir, h, g);
        if g in data {
          var name :| Rendered(d, dataDir + [g], name, data[g]);
          RenameKeepsOther(d, from, to, dataDir + [g], name, data[g]);
        }
      }
    }
  }

  lemma ApartFromEntry(from: Location, dataDir: Location, h: Hash)
    requires Apart(from, dataDir)
    ensures Apart(from, dataDir + [h])
  {
    ApartBelow(dataDir, from, [h]);
  }

  lemma OtherEntryStays(d: Nodes, from: Location, dataDir: Location, h: Hash, g: Hash)
    requires Apart(from, dataDir) && g != h
    ensures Apart(from, dataDir + [g]) && Apart(dataDir + [h], dataDir + [g])
    ensures dataDir + [g] in Renamed(d, from, dataDir + [h]) <==> dataDir + [g] in d
  {
    ApartFromEntry(from, dataDir, g);
    assert (dataDir + [h])[|dataDir|] == h && (dataDir + [g])[|dataDir|] == g;
    RenamedElsewhere(d, from, dataDir + [h], dataDir + [g]);
  }

  /** The rename that commits a folder is not refused, as long as its target is absent. */
  lemma CommitIsNotRefused(d: Nodes, dataDir: Location, data: map<Hash, Tree>, from: Location, h: Hash)
    requires Holds(d, dataDir, data) && h !in data && dataDir in d && d[dataDir] == Folder
    requires from in d && Apart(from, dataDir)
    ensures CanRename(d, from, dataDir + [h]) && StorageFs.Committed(d, from, dataDir + [h]) == Renamed(d, from, dataDir + [h])
  {
    hide Rendered;
    ApartFromEntry(from, dataDir, h);
    assert (dataDir + [h])[..|dataDir|] == dataDir;
  }

  /** What `find_existing_data` answers to an upload of hash `h`: that there is no folder exactly if
      the hash is not stored; and if it is, what it reads is the result of the upload that stored
      it, exactly if that result is readable. */
  lemma SearchFindsTheStored(
      uploads: seq<Upload>, s: State, d: Nodes, dataDir: Location, h: Hash, listing: Option<seq<StorageFs.Entry>>)
    requires ServerInvariant.AllFit(uploads) && ServerTheorems.Reachable(uploads, s) && Holds(d, dataDir, s.data)
    requires listing.Some? <==> dataDir + [h] in d
    requires listing.Some? ==> StorageFs.Lists(d, dataDir + [h], listing.value)
    ensures ExistingData.FindSpec(listing).NoFolder? <==> h !in s.data
    ensures h in s.data ==> exists q: nat, filename ::
      && q < |uploads| == |s.procs| && uploads[q].hash == h && s.procs[q].run.isNew && Succeeded(s.procs[q])
      && (Recovers(uploads[q].job, filename, ExistingData.FindSpec(listing)) <==> Readable(uploads[q].job))
  {
    ExistingData.SearchIsExact(listing);
    if h in s.data {
      ServerTheorems.FoldersAreComplete(uploads, s, h);
      hide ServerInvariant.AllFit, ServerTheorems.Reachable, Rendered, Recovers, Readable, StorageFs.Lists, TreeOf,
        ExistingData.FindSpec, Succeeded;
      var filename :| Rendered(d, dataDir + [h], filename, s.data[h]);
      var q: nat :| q < |uploads| == |s.procs| && uploads[q].hash == h && Succeeded(s.procs[q]) && s.procs[q].run.isNew
                    && s.data[h] == TreeOf(uploads[q].job, |uploads[q].job.sizes|);
      RoundTripIsExact(uploads[q].job, d, dataDir + [h], filename, listing.value);
    }
  }
}
