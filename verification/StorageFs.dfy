/** The file-system backend of src/storage/fs.hpp: staged folders, their commit by renaming a
    copy of the folder object, the destructors of both, and the listing of a folder. */
module StorageFs {
  import opened Fanout
  import opened Disks

  /** The file system, shared by all. */
  class Disk {
    var nodes: Nodes

    constructor ()
      ensures nodes == map[]
    {
      nodes := map[];
    }
  }

  /** What `rename` into `data_dir` followed by the destructor of the copy leaves behind. */
  function Committed(d: Nodes, from: Location, to: Location): Nodes {
    if CanRename(d, from, to) then Renamed(d, from, to) else RemoveAll(d, from)
  }

  /** `fs_staged_folder`. */
  class StagedFolder {
    const disk: Disk
    const path: Location
    const finalName: string
    var shouldCleanup: bool

    constructor (disk: Disk, path: Location, finalName: string)
      ensures this.disk == disk && this.path == path && this.finalName == finalName && shouldCleanup
    {
      this.disk, this.path, this.finalName := disk, path, finalName;
      shouldCleanup := true;
    }

    /** The copy constructor. */
    constructor Copy(other: StagedFolder)
      ensures disk == other.disk && path == other.path && finalName == other.finalName
      ensures shouldCleanup == other.shouldCleanup
    {
      disk, path, finalName := other.disk, other.path, other.finalName;
      shouldCleanup := other.shouldCleanup;
    }

    /** The destructor. */
    method Destroy()
      modifies disk
      ensures disk.nodes == if shouldCleanup then RemoveAll(old(disk.nodes), path) else old(disk.nodes)
    {
      if shouldCleanup {
        disk.nodes := RemoveAll(disk.nodes, path);
      }
    }

    /** Returns whether the file could be opened; otherwise the source throws. */
    method AddFile(name: Location, content: Bytes) returns (ok: bool)
      modifies disk
      ensures var r := CreateFile(old(disk.nodes), path + name, content);
        ok == r.Some? && disk.nodes == if ok then r.value else old(disk.nodes)
    {
      var r := CreateFile(disk.nodes, path + name, content);
      ok := r.Some?;
      if ok { disk.nodes := r.value; }
    }

    method AddFolder(name: Location) returns (ok: bool)
      modifies disk
      ensures var r := CreateDirectory(old(disk.nodes), path + name);
        ok == r.Some? && disk.nodes == if ok then r.value else old(disk.nodes)
    {
      var r := CreateDirectory(disk.nodes, path + name);
      ok := r.Some?;
      if ok { disk.nodes := r.value; }
    }
  }

  /** `folder_entry`: a file has no children, a folder has a list of them. */
  datatype Entry = Entry(name: string, children: Option<seq<Entry>>)

  ghost predicate Named(entries: seq<Entry>, name: string) {
    exists i :: 0 <= i < |entries| && entries[i].name == name
  }

  /** `entries` lists the folder `p` and everything below it, in any order. */
  ghost predicate Lists(d: Nodes, p: Location, entries: seq<Entry>)
    decreases Contents(d, p)
  {
    && (forall i, j :: 0 <= i < j < |entries| ==> entries[i].name != entries[j].name)
    && (forall name: string :: p + [name] in d <==> Named(entries, name))
    && (forall i | 0 <= i < |entries| ::
         var q := p + [entries[i].name];
         && q in d && (d[q].Folder? <==> entries[i].children.Some?)
         && (entries[i].children.Some? ==> (DeeperIsSmaller(d, p, entries[i].name); Lists(d, q, entries[i].children.value))))
  }

  /** `storage_fs`. */
  class StorageFs {
    const disk: Disk
    var dataDir: Location
    var tempDir: Location

    constructor (disk: Disk)
      ensures this.disk == disk && dataDir == [] && tempDir == []
    {
      this.disk := disk;
      dataDir, tempDir := [], [];
    }

    method SetConfig(key: string, value: Location) returns (known: bool)
      modifies this
      ensures known == (key == "data_dir" || key == "temp_dir")
      ensures dataDir == if key == "data_dir" then value else old(dataDir)
      ensures tempDir == if key == "temp_dir" then value else old(tempDir)
    {
      known := true;
      if key == "data_dir" {
        dataDir := value;
      } else if key == "temp_dir" {
        tempDir := value;
      } else {
        known := false;
      }
    }

    method Validate() returns (ok: bool)
      ensures ok == Validates(tempDir, dataDir)
    {
      ok := dataDir != [] && tempDir != [];
    }

    /** Empties the temporary directory and makes sure that both exist. */
    method Start() returns (ok: bool)
      modifies disk
      ensures ok == Started(old(disk.nodes), tempDir, dataDir).Some?
      ensures disk.nodes == AfterStart(old(disk.nodes), tempDir, dataDir)
    {
      disk.nodes := Emptied(disk.nodes, tempDir);
      var r := CreateDirectory(disk.nodes, tempDir);
      if r.None? { return false; }
      disk.nodes := r.value;
      r := CreateDirectory(disk.nodes, dataDir);
      if r.None? { return false; }
      disk.nodes := r.value;
      ok := true;
    }

    method CreateStagedFolder(folder: string, random: string) returns (staged: Option<StagedFolder>)
      modifies disk
      ensures var r := CreateDirectory(old(disk.nodes), tempDir + [folder + random]);
        && staged.Some? == r.Some?
        && disk.nodes == if r.Some? then r.value else old(disk.nodes)
      ensures staged.Some? ==>
        && fresh(staged.value) && staged.value.disk == disk && staged.value.shouldCleanup
        && staged.value.path == tempDir + [folder + random] && staged.value.finalName == folder
    {
      var path := tempDir + [folder + random];
      var r := CreateDirectory(disk.nodes, path);
      if r.None? { return None; }
      disk.nodes := r.value;
      var result := new StagedFolder(disk, path, folder);
      staged := Some(result);
    }

    /** The rename is done on a copy, so only the copy learns that nothing is left to clean up;
        a refused rename throws, which destroys the copy while it still cleans up. */
    method CommitStagedFolder(folder: StagedFolder) returns (ok: bool)
      requires folder.disk == disk && folder.shouldCleanup
      modifies disk
      ensures ok == CanRename(old(disk.nodes), folder.path, dataDir + [folder.finalName])
      ensures disk.nodes == Committed(old(disk.nodes), folder.path, dataDir + [folder.finalName])
    {
      var copy := new StagedFolder.Copy(folder);
      var fullPath := dataDir + [copy.finalName];
      ok := CanRename(disk.nodes, copy.path, fullPath);
      if ok {
        disk.nodes := Renamed(disk.nodes, copy.path, fullPath);
        copy.shouldCleanup := false;
      }
      copy.Destroy();
    }

    /** Lists a folder of the data directory, recursively; none if there is no such folder. */
    method WalkFolder(path: Location) returns (result: Option<seq<Entry>>)
      ensures result.Some? <==> dataDir + path in disk.nodes
      ensures result.Some? ==> Lists(disk.nodes, dataDir + path, result.value)
    {
      var fullPath := dataDir + path;
      if fullPath !in disk.nodes { return None; }
      var entries := Walk(disk.nodes, fullPath);
      result := Some(entries);
    }
  }

  function Names(d: Nodes, p: Location): set<string> {
    set q | q in d && Below(p, q) && |q| == |p| + 1 :: q[|p|]
  }

  function Contents(d: Nodes, p: Location): set<Location> {
    set q | q in d && Below(p, q) && q != p
  }

  lemma NamesAre(d: Nodes, p: Location, name: string)
    ensures name in Names(d, p) <==> p + [name] in d
  {
    if name in Names(d, p) {
      var q :| q in d && Below(p, q) && |q| == |p| + 1 && q[|p|] == name;
      assert q == p + [name];
    }
    if p + [name] in d {
      assert Below(p, p + [name]) && (p + [name])[|p|] == name;
    }
  }

  lemma DeeperIsSmaller(d: Nodes, p: Location, name: string)
    requires p + [name] in d
    ensures Contents(d, p + [name]) < Contents(d, p)
  {
    var q := p + [name];
    assert q in Contents(d, p) && q !in Contents(d, q);
    forall x | x in Contents(d, q) ensures x in Contents(d, p) {
      assert x[..|p|] == x[..|q|][..|p|] == p;
    }
  }

  /** The recursive listing, taking the entries of a folder in any order. */
  method Walk(d: Nodes, p: Location) returns (entries: seq<Entry>)
    ensures Lists(d, p, entries)
    decreases Contents(d, p)
  {
    var rest := Names(d, p);
    entries := [];
    while rest != {}
      invariant rest <= Names(d, p)
      invariant forall i, j :: 0 <= i < j < |entries| ==> entries[i].name != entries[j].name
      invariant forall i | 0 <= i < |entries| :: entries[i].name !in rest
      invariant forall name :: name in Names(d, p) - rest <==> Named(entries, name)
      invariant forall i | 0 <= i < |entries| ::
        var q := p + [entries[i].name];
        && q in d && (d[q].Folder? <==> entries[i].children.Some?)
        && (entries[i].children.Some? ==> Lists(d, q, entries[i].children.value))
      decreases rest
    {
      var name :| name in rest;
      NamesAre(d, p, name);
      var children: Option<seq<Entry>> := None;
      if d[p + [name]].Folder? {
        DeeperIsSmaller(d, p, name);
        var below := Walk(d, p + [name]);
        children := Some(below);
      }
      ghost var before := entries;
      entries := entries + [Entry(name, children)];
      assert entries[|before|].name == name;
      rest := rest - {name};
      forall n ensures n in Names(d, p) - rest <==> Named(entries, n) {
        if n in Names(d, p) - rest && n != name {
          assert Named(before, n);
          var i :| 0 <= i < |before| && before[i].name == n;
          assert entries[i].name == n;
        }
      }
    }
    forall name ensures p + [name] in d <==> Named(entries, name) {
      NamesAre(d, p, name);
    }
  }

  // ---------------------------------------------------------------- what they do together

  /** `remove_all` of the temporary directory; an empty name names nothing. */
  predicate IsEmptied(temp: Location, q: Location) {
    temp != [] && Below(temp, q)
  }

  function Emptied(d: Nodes, temp: Location): Nodes {
    if temp == [] then d else RemoveAll(d, temp)
  }

  function Started(d: Nodes, temp: Location, data: Location): Option<Nodes> {
    match CreateDirectory(Emptied(d, temp), temp)
    case None => None
    case Some(d1) => CreateDirectory(d1, data)
  }

  /** The disk that `init` leaves behind, whether or not it fails on the way. */
  function AfterStart(d: Nodes, temp: Location, data: Location): Nodes {
    match CreateDirectory(Emptied(d, temp), temp)
    case None => Emptied(d, temp)
    case Some(d1) => if CreateDirectory(d1, data).Some? then CreateDirectory(d1, data).value else d1
  }

  /** A directory tree: every node lies in a folder. */
  ghost predicate IsTree(d: Nodes) {
    forall p | p in d :: ParentExists(d, p)
  }

  /** The two directories have the names that `validate` asks for. */
  predicate Validates(temp: Location, data: Location) {
    data != [] && temp != []
  }

  /** Exactly when `init` succeeds. */
  lemma StartIsExact(d: Nodes, temp: Location, data: Location)
    ensures Started(d, temp, data).Some? <==>
      && Validates(temp, data) && ParentExists(d, temp)
      && if Below(temp, data) then |data| <= |temp| + 1
         else if data in d then d[data].Folder? else ParentExists(d, data)
  {
    if Validates(temp, data) {
      assert |temp| > 1 ==> !Below(temp, temp[..|temp| - 1]);
      if Below(temp, data) && |data| > |temp| {
        var up := data[..|data| - 1];
        assert up[..|temp|] == temp && Below(temp, up);
        assert up in RemoveAll(d, temp)[temp := Folder] <==> up == temp;
      } else if !Below(temp, data) {
        assert !Below(temp, data[..|data| - 1]);
        hide Below;
      } else {
        assert data == temp;
      }
    }
  }

  /** The locations above `p`, and `p`, as folders. */
  function Ways(p: Location): Nodes {
    map k: nat | 0 < k <= |p| :: p[..k] := Folder
  }

  lemma WaysAreFolders(p: Location, q: Location)
    ensures q in Ways(p) <==> q != [] && Below(q, p)
    ensures q in Ways(p) ==> Ways(p)[q] == Folder
  {
    if q != [] && Below(q, p) { assert q == p[..|q|]; }
  }

  /** What `validate` is for, and what it lets through: the settings with which `init` can succeed
      at all are those it accepts, except a data directory two or more levels inside the temporary
      one, whose parent `init` has just removed. */
  lemma ValidateIsExact(temp: Location, data: Location)
    ensures (exists d :: IsTree(d) && Started(d, temp, data).Some?) <==>
      Validates(temp, data) && (Below(temp, data) ==> |data| <= |temp| + 1)
  {
    forall d | IsTree(d) && Started(d, temp, data).Some?
      ensures Validates(temp, data) && (Below(temp, data) ==> |data| <= |temp| + 1)
    {
      StartIsExact(d, temp, data);
    }
    if Validates(temp, data) && (Below(temp, data) ==> |data| <= |temp| + 1) {
      var d := Ways(temp) + Ways(data);
      forall q ensures q in d <==> q != [] && (Below(q, temp) || Below(q, data))
        ensures q in d ==> d[q] == Folder
      {
        WaysAreFolders(temp, q);
        WaysAreFolders(data, q);
      }
      forall q | q in d ensures ParentExists(d, q) {
        if |q| > 1 { assert Below(q[..|q| - 1], q); }
      }
      StartIsExact(d, temp, data);
      assert IsTree(d);
    }
  }

  /** Every file stored in the data directory, at any depth, is still there as it was. */
  ghost predicate KeepsFiles(d: Nodes, temp: Location, data: Location) {
    var d' := AfterStart(d, temp, data);
    forall q | q in d && Below(data, q) && d[q].File? :: q in d' && d'[q] == d[q]
  }

  /** So is everything stored in it, folders too. */
  ghost predicate KeepsData(d: Nodes, temp: Location, data: Location) {
    var d' := AfterStart(d, temp, data);
    forall q | q in d && Below(data, q) && q != data :: q in d' && d'[q] == d[q]
  }

  /** Where `init` leaves what the disk holds, whether it succeeds or fails. */
  lemma StartKeepsAt(d: Nodes, temp: Location, data: Location, q: Location)
    requires q in d && q != data
    ensures var d' := AfterStart(d, temp, data);
      q in d' && d'[q] == d[q] <==> (IsEmptied(temp, q) ==> q == temp && d[q].Folder? && ParentExists(d, temp))
  {
    if temp != [] {
      assert |temp| > 1 ==> !Below(temp, temp[..|temp| - 1]);
    }
  }

  lemma StartKeepsFileAt(d: Nodes, temp: Location, data: Location, q: Location)
    requires q in d && d[q].File?
    ensures var d' := AfterStart(d, temp, data); q in d' && d'[q] == d[q] <==> !IsEmptied(temp, q)
  {
  }

  /** Exactly when `init` spares what is stored. Of the locations it empties only the temporary
      directory itself comes back, as a folder. */
  lemma StartKeepsDataIsExact(d: Nodes, temp: Location, data: Location)
    ensures KeepsFiles(d, temp, data) <==>
      forall q | q in d && Below(data, q) && d[q].File? :: !IsEmptied(temp, q)
    ensures KeepsData(d, temp, data) <==>
      forall q | q in d && Below(data, q) && q != data && IsEmptied(temp, q) ::
        q == temp && d[q].Folder? && ParentExists(d, temp)
  {
    hide AfterStart, ParentExists, IsEmptied;
    var d' := AfterStart(d, temp, data);
    forall q | q in d && Below(data, q) && d[q].File? ensures q in d' && d'[q] == d[q] <==> !IsEmptied(temp, q) {
      StartKeepsFileAt(d, temp, data, q);
    }
    forall q | q in d && Below(data, q) && q != data
      ensures q in d' && d'[q] == d[q] <==> (IsEmptied(temp, q) ==> q == temp && d[q].Folder? && ParentExists(d, temp))
    {
      StartKeepsAt(d, temp, data, q);
    }
  }

  /** And with which settings it does so whatever is stored: `validate` does not check that. */
  lemma SafeSettingsAreExact(temp: Location, data: Location)
    ensures (forall d | IsTree(d) :: KeepsFiles(d, temp, data)) <==> temp == [] || Apart(temp, data)
  {
    if temp == [] || Apart(temp, data) {
      forall d | IsTree(d) ensures KeepsFiles(d, temp, data) {
        StartKeepsDataIsExact(d, temp, data);
        forall q | q in d && Below(data, q) ensures !IsEmptied(temp, q) {
          if temp != [] {
            ApartBelow(data, temp, q[|data|..]);
            BelowSplits(data, q);
          }
        }
      }
    } else {
      var inner := if |temp| <= |data| then data else temp;
      var file := inner + ["f"];
      var d := Ways(inner)[file := File([])];
      forall q | q in d ensures ParentExists(d, q) {
        if q != file { WaysAreFolders(inner, q); }
        if |q| > 1 {
          assert q == file ==> q[..|q| - 1] == inner;
          WaysAreFolders(inner, q[..|q| - 1]);
        }
      }
      assert IsTree(d) && file in d && d[file].File?;
      assert Below(temp, file) && Below(data, file);
      StartKeepsDataIsExact(d, temp, data);
    }
  }

  /** Once a commit has succeeded, destroying the staged folder removes nothing, although its
      `should_cleanup` is still set. */
  lemma DestroyAfterCommit(d: Nodes, from: Location, to: Location)
    requires CanRename(d, from, to) && Apart(from, to)
    ensures RemoveAll(Committed(d, from, to), from) == Committed(d, from, to)
  {
    var d' := Renamed(d, from, to);
    forall q | q in d' ensures !Below(from, q) {
      if Below(from, q) {
        BelowSplits(from, q);
        RenamedAt(d, from, to, q[|from|..]);
      }
    }
  }

  /** A refused commit leaves the data directory as it was. */
  lemma RefusedCommitKeeps(d: Nodes, from: Location, to: Location, p: Location, t: Nodes)
    requires !CanRename(d, from, to) && Stores(d, p, t) && Apart(p, from)
    ensures Stores(Committed(d, from, to), p, t) && Stores(Committed(d, from, to), from, map[])
  {
    RemoveKeepsApart(d, p, t, from);
    RemoveLeavesNothing(d, from);
  }
}
