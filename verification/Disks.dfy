/** The file system as src/storage/fs.hpp uses it: a map from paths to nodes, with atomic
    creation, removal and renaming. A path is the sequence of its components. */
module Disks {
  import opened Fanout

  type Location = seq<string>

  type Nodes = map<Location, Node>

  /** `p` lies at or below `top`. */
  predicate Below(top: Location, p: Location) {
    top <= p
  }

  predicate ParentExists(d: Nodes, p: Location) {
    |p| > 0 && (|p| == 1 || (p[..|p| - 1] in d && d[p[..|p| - 1]].Folder?))
  }

  predicate IsEmpty(d: Nodes, p: Location) {
    forall q | q in d :: Below(p, q) ==> q == p
  }

  /** `remove_all`. */
  function RemoveAll(d: Nodes, p: Location): Nodes {
    map q | q in d && !Below(p, q) :: d[q]
  }

  /** `create_directory`: no error if the folder exists; an empty name is one. */
  function CreateDirectory(d: Nodes, p: Location): Option<Nodes> {
    if p == [] then None
    else if p in d then (if d[p].Folder? then Some(d) else None)
    else if ParentExists(d, p) then Some(d[p := Folder]) else None
  }

  /** Opening a file for writing, and writing it. */
  function CreateFile(d: Nodes, p: Location, content: Bytes): Option<Nodes> {
    if ParentExists(d, p) && (p in d ==> d[p].File?) then Some(d[p := File(content)]) else None
  }

  /** `rename()` replaces a file by a file and an empty folder by a folder; it refuses any other
      existing target, a missing source or parent, and a target inside the source. */
  predicate CanRename(d: Nodes, from: Location, to: Location) {
    from in d && ParentExists(d, to) && !Below(from, to)
    && (to in d ==> d[to].Folder? == d[from].Folder? && IsEmpty(d, to))
  }


  function Renamed(d: Nodes, from: Location, to: Location): Nodes {
    var moved := set q | q in d && Below(from, q) :: to + q[|from|..];
    map q | q in d.Keys + moved && (q in moved || (!Below(from, q) && !Below(to, q))) ::
      if Below(to, q) && from + q[|to|..] in d then d[from + q[|to|..]] else if q in d then d[q] else Folder
  }

  /** What can be created in a directory: a file unless a folder is there, and a folder unless a file
      is; nothing if the directory does not exist. */
  lemma CreatedIs(d: Nodes, dir: Location, name: string, content: Bytes)
    requires dir != []
    ensures var p, isDir := dir + [name], dir in d && d[dir].Folder?;
      && CreateFile(d, p, content) == (if isDir && (p !in d || d[p].File?) then Some(d[p := File(content)]) else None)
      && (p !in d ==> CreateDirectory(d, p) == if isDir then Some(d[p := Folder]) else None)
      && (p in d ==> CreateDirectory(d, p) == if d[p].Folder? then Some(d) else None)
  {
    assert (dir + [name])[..|dir|] == dir;
  }

  /** What a rename into a directory needs: an absent target in an existing directory, or an empty
      folder to replace, or a file to replace with a file. */
  lemma RenameIsExact(d: Nodes, from: Location, dir: Location, name: string)
    requires dir != [] && Apart(from, dir + [name]) && from in d
    ensures var p := dir + [name];
      CanRename(d, from, p) <==>
        && dir in d && d[dir].Folder?
        && (p in d ==> d[p].Folder? == d[from].Folder? && forall q | q in d && Below(p, q) :: q == p)
  {
    assert (dir + [name])[..|dir|] == dir;
  }

  // ---------------------------------------------------------------- what is stored at a place

  /** The tree `t`, in locations relative to `p`, is what the disk holds at `p`. */
  ghost predicate Stores(d: Nodes, p: Location, t: Nodes) {
    forall r: Location :: (r in t <==> p + r in d) && (r in t ==> t[r] == d[p + r])
  }

  ghost predicate Apart(p: Location, q: Location) {
    !Below(p, q) && !Below(q, p)
  }

  lemma ApartBelow(p: Location, q: Location, r: Location)
    requires Apart(p, q)
    ensures !Below(q, p + r)
  {
    if |q| <= |p| {
      assert (p + r)[..|q|] == p[..|q|];
    } else {
      assert (p + r)[..|p|] == p;
    }
  }

  lemma BelowSplits(p: Location, q: Location)
    requires Below(p, q)
    ensures q == p + q[|p|..]
  {
  }

  /** Two trees at places apart do not touch. */
  lemma RemoveKeepsApart(d: Nodes, p: Location, t: Nodes, q: Location)
    requires Stores(d, p, t) && Apart(p, q)
    ensures Stores(RemoveAll(d, q), p, t)
  {
    forall r: Location ensures !Below(q, p + r) {
      ApartBelow(p, q, r);
    }
  }

  lemma RemoveLeavesNothing(d: Nodes, p: Location)
    ensures Stores(RemoveAll(d, p), p, map[])
  {
  }

  lemma WriteKeepsApart(d: Nodes, p: Location, t: Nodes, q: Location, r: Location, node: Node)
    requires Stores(d, p, t) && Apart(p, q)
    ensures Stores(d[q + r := node], p, t)
  {
    forall s: Location ensures p + s != q + r {
      ApartBelow(p, q, s);
      assert Below(q, q + r);
    }
  }

  lemma WriteInside(d: Nodes, p: Location, t: Nodes, r: Location, node: Node)
    requires Stores(d, p, t)
    ensures Stores(d[p + r := node], p, t[r := node])
  {
    forall s: Location ensures p + s == p + r <==> s == r {
      assert (p + s)[|p|..] == s && (p + r)[|p|..] == r;
    }
  }

  lemma RenamedAt(d: Nodes, from: Location, to: Location, r: Location)
    requires Apart(from, to)
    ensures to + r in Renamed(d, from, to) <==> from + r in d
    ensures from + r in d ==> Renamed(d, from, to)[to + r] == d[from + r]
    ensures from + r !in Renamed(d, from, to)
  {
    ApartBelow(to, from, r);
    ApartBelow(from, to, r);
    assert (to + r)[|to|..] == r;
    if from + r in d {
      assert (from + r)[|from|..] == r && Below(from, from + r);
      assert to + r in (set q | q in d && Below(from, q) :: to + q[|from|..]);
    }
    forall q | q in d && Below(from, q) ensures Below(to, to + q[|from|..]) && (to + r == to + q[|from|..] ==> q == from + r) {
      assert (to + q[|from|..])[|to|..] == q[|from|..];
      BelowSplits(from, q);
    }
  }

  /** A renamed folder is at its target, whole, and no longer at its source. */
  lemma RenameMoves(d: Nodes, from: Location, to: Location, t: Nodes)
    requires Stores(d, from, t) && Apart(from, to)
    ensures Stores(Renamed(d, from, to), to, t) && Stores(Renamed(d, from, to), from, map[])
  {
    forall r: Location ensures (r in t <==> to + r in Renamed(d, from, to)) && (r in t ==> t[r] == Renamed(d, from, to)[to + r])
      && from + r !in Renamed(d, from, to)
    {
      RenamedAt(d, from, to, r);
    }
  }

  lemma RenamedElsewhere(d: Nodes, from: Location, to: Location, q: Location)
    requires !Below(from, q) && !Below(to, q)
    ensures q in Renamed(d, from, to) <==> q in d
    ensures q in d ==> Renamed(d, from, to)[q] == d[q]
  {
    forall p | p in d && Below(from, p) ensures Below(to, to + p[|from|..]) {
    }
  }

}
