/** A later upload reads from the committed folder exactly what the owner produced; the exact
    condition on names, formats and dimensions under which it does. */
module RoundTrip {
  import opened Fanout
  import opened FanoutTheorems
  import opened Disks
  import opened StorageFs
  import opened ExistingData
  import Text
  import Sorting

  function SizeName(w: nat, h: nat): string {
    Text.Print(w) + "x" + Text.Print(h)
  }

  function FileName(filename: string, extension: string): string {
    filename + "." + extension
  }

  /** The place of an entry of the staged folder, as `create_file` and `create_folder` are
      called with it. */
  function NameOf(filename: string, p: Path): Location {
    match p
    case Original(e) => [FileName(filename, e)]
    case Sized(w, h) => [SizeName(w, h)]
    case Variant(w, h, e) => [SizeName(w, h), FileName(filename, e)]
  }

  /** The disk holds, at `top`, the folder with the entries of `tree` under their names. */
  ghost predicate Rendered(d: Nodes, top: Location, filename: string, tree: Tree) {
    && (forall p :: p in tree ==> top + NameOf(filename, p) in d && d[top + NameOf(filename, p)] == tree[p])
    && (forall q | q in d && Below(top, q) && q != top :: exists p :: p in tree && q == top + NameOf(filename, p))
  }

  // ---------------------------------------------------------------- names

  lemma NoXInNumber(n: nat)
    ensures 'x' !in Text.Print(n) && '.' !in Text.Print(n)
  {
    assert Text.AllDigits(Text.Print(n));
  }

  /** The name of a size is read back exactly if both numbers fit an `int`. */
  lemma SizeNameComesBack(w: nat, h: nat)
    ensures ParseDimensions(SizeName(w, h)) == Good((w, h)) <==> w <= Text.INT_MAX && h <= Text.INT_MAX
    ensures ParseDimensions(SizeName(w, h)).Good? ==> w <= Text.INT_MAX && h <= Text.INT_MAX
  {
    var s := SizeName(w, h);
    NoXInNumber(w);
    Text.FindIs(Text.Print(w), 'x', Text.Print(h));
    assert s[..|Text.Print(w)|] == Text.Print(w) + "" && s[|Text.Print(w)| + 1..] == Text.Print(h) + "";
    Text.PrintedNumberComesBack(w, "");
    Text.PrintedNumberComesBack(h, "");
  }

  lemma SizeNamesDiffer(w: nat, h: nat, w': nat, h': nat)
    requires SizeName(w, h) == SizeName(w', h')
    ensures w == w' && h == h'
  {
    var s := SizeName(w, h);
    NoXInNumber(w);
    NoXInNumber(w');
    Text.FindIs(Text.Print(w), 'x', Text.Print(h));
    Text.FindIs(Text.Print(w'), 'x', Text.Print(h'));
    assert s[..|Text.Print(w)|] == Text.Print(w) && s[..|Text.Print(w)|] == Text.Print(w');
    assert s[|Text.Print(w)| + 1..] == Text.Print(h) && s[|Text.Print(w)| + 1..] == Text.Print(h');
    Text.PrintIsInjective(w, w');
    Text.PrintIsInjective(h, h');
  }

  lemma FileIsNoSize(filename: string, e: string, w: nat, h: nat)
    ensures FileName(filename, e) != SizeName(w, h)
  {
    NoXInNumber(w);
    NoXInNumber(h);
    assert FileName(filename, e)[|filename|] == '.';
    assert '.' in FileName(filename, e);
    assert '.' !in SizeName(w, h);
  }

  lemma FileNamesDiffer(filename: string, e: string, e': string)
    requires FileName(filename, e) == FileName(filename, e')
    ensures e == e'
  {
    assert FileName(filename, e)[|filename| + 1..] == e && FileName(filename, e')[|filename| + 1..] == e';
  }

  /** Different entries have different names. */
  lemma NameOfIsInjective(filename: string, p: Path, q: Path)
    requires NameOf(filename, p) == NameOf(filename, q)
    ensures p == q
  {
    hide SizeName, FileName;
    assert |NameOf(filename, p)| == |NameOf(filename, q)| && NameOf(filename, p)[0] == NameOf(filename, q)[0];
    match p
    case Original(e) =>
      if q.Original? { FileNamesDiffer(filename, e, q.extension); } else { FileIsNoSize(filename, e, q.width, q.height); }
    case Sized(w, h) =>
      if q.Sized? { SizeNamesDiffer(w, h, q.width, q.height); } else { FileIsNoSize(filename, q.extension, w, h); }
    case Variant(w, h, e) =>
      SizeNamesDiffer(w, h, q.width, q.height);
      assert NameOf(filename, p)[1] == NameOf(filename, q)[1];
      FileNamesDiffer(filename, e, q.extension);
  }

  // ---------------------------------------------------------------- from the staged folder to the data directory

  /** A new staged folder holds nothing. */
  lemma NewFolderIsRendered(d: Nodes, top: Location, filename: string)
    requires forall q | q in d :: !Below(top, q)
    ensures Rendered(d[top := Folder], top, filename, map[])
  {
  }

  /** Writing an entry of the tree under its name keeps the folder in step with the tree. */
  lemma WriteKeepsRendered(d: Nodes, top: Location, filename: string, tree: Tree, p: Path, node: Node)
    requires Rendered(d, top, filename, tree)
    ensures Rendered(d[top + NameOf(filename, p) := node], top, filename, tree[p := node])
  {
    var d', tree' := d[top + NameOf(filename, p) := node], tree[p := node];
    forall q | q in tree' ensures top + NameOf(filename, q) in d' && d'[top + NameOf(filename, q)] == tree'[q] {
      if q != p {
        if NameOf(filename, q) == NameOf(filename, p) { NameOfIsInjective(filename, p, q); }
        assert (top + NameOf(filename, q))[|top|..] == NameOf(filename, q);
        assert (top + NameOf(filename, p))[|top|..] == NameOf(filename, p);
      }
    }
    forall x | x in d' && Below(top, x) && x != top ensures exists q :: q in tree' && x == top + NameOf(filename, q) {
      if x != top + NameOf(filename, p) {
        var q :| q in tree && x == top + NameOf(filename, q);
        assert q in tree';
      } else {
        assert p in tree';
      }
    }
  }

  /** The commit moves the folder as it is. */
  lemma RenameKeepsRendered(d: Nodes, from: Location, to: Location, filename: string, tree: Tree)
    requires Rendered(d, from, filename, tree) && Apart(from, to)
    ensures Rendered(Renamed(d, from, to), to, filename, tree)
  {
    var d' := Renamed(d, from, to);
    forall p | p in tree ensures to + NameOf(filename, p) in d' && d'[to + NameOf(filename, p)] == tree[p] {
      RenamedAt(d, from, to, NameOf(filename, p));
    }
    forall x | x in d' && Below(to, x) && x != to ensures exists p :: p in tree && x == to + NameOf(filename, p) {
      var r := x[|to|..];
      BelowSplits(to, x);
      RenamedAt(d, from, to, r);
      assert from + r in d && Below(from, from + r) && from + r != from;
      var p :| p in tree && from + r == from + NameOf(filename, p);
      assert (from + r)[|from|..] == r && (from + NameOf(filename, p))[|from|..] == NameOf(filename, p);
    }
  }

  // ---------------------------------------------------------------- what a listing of the folder says

  /** The entries of the committed folder: the original, and a folder for each width. */
  ghost predicate TopOk(job: Job, filename: string, entries: seq<Entry>) {
    && Sorting.Distinct(NamesOf(entries))
    && (forall e | e in entries ::
         if e.children.None? then e.name == FileName(filename, job.Format())
         else exists w :: w in job.sizes && IsVariantOf(job, filename, e, w))
    && (exists e :: e in entries && e.children.None?)
    && (forall w | w in job.sizes :: exists e :: e in entries && IsVariantOf(job, filename, e, w))
  }

  predicate IsFileOf(filename: string, formats: seq<string>, name: string) {
    exists f | f in formats :: name == FileName(filename, f)
  }

  function NamesOf(entries: seq<Entry>): seq<string> {
    seq(|entries|, i requires 0 <= i < |entries| => entries[i].name)
  }

  /** The folder of width `w`, with one file per format. */
  ghost predicate IsVariantOf(job: Job, filename: string, e: Entry, w: nat) {
    && e.name == SizeName(w, job.thumbnail(w)) && e.children.Some?
    && Sorting.Distinct(NamesOf(e.children.value))
    && forall name :: name in NamesOf(e.children.value) <==> IsFileOf(filename, job.Formats(), name)
  }

  lemma ListedNames(d: Nodes, p: Location, entries: seq<Entry>)
    requires Lists(d, p, entries)
    ensures Sorting.Distinct(NamesOf(entries))
    ensures forall name :: name in NamesOf(entries) <==> p + [name] in d
  {
    forall name ensures name in NamesOf(entries) <==> p + [name] in d {
      if p + [name] in d {
        assert Named(entries, name);
        var i :| 0 <= i < |entries| && entries[i].name == name;
        assert NamesOf(entries)[i] == name;
      }
      if name in NamesOf(entries) {
        var i :| 0 <= i < |entries| && NamesOf(entries)[i] == name;
        assert entries[i].name == name && Named(entries, name);
      }
    }
  }

  /** What lies at a place of the rendered folder. */
  lemma RenderedAt(d: Nodes, top: Location, filename: string, tree: Tree, q: Location)
    requires Rendered(d, top, filename, tree) && q != []
    ensures top + q in d ==> exists p :: p in tree && q == NameOf(filename, p) && d[top + q] == tree[p]
  {
    if top + q in d {
      var p :| p in tree && top + q == top + NameOf(filename, p);
      assert (top + q)[|top|..] == q && (top + NameOf(filename, p))[|top|..] == NameOf(filename, p);
    }
  }

  /** The files in the folder of one width. */
  lemma VariantNames(job: Job, d: Nodes, top: Location, filename: string, w: nat, name: string)
    requires Rendered(d, top, filename, TreeOf(job, |job.sizes|)) && w in job.sizes
    ensures top + [SizeName(w, job.thumbnail(w)), name] in d <==> IsFileOf(filename, job.Formats(), name)
  {
    TreeOfIs(job, |job.sizes|);
    assert job.sizes[..|job.sizes|] == job.sizes;
    hide TreeOf;
    var q := [SizeName(w, job.thumbnail(w)), name];
    if top + q in d {
      RenderedAt(d, top, filename, TreeOf(job, |job.sizes|), q);
      var p :| p in TreeOf(job, |job.sizes|) && q == NameOf(filename, p);
      assert p.Variant? && q[0] == SizeName(p.width, p.height) && name == FileName(filename, p.extension);
      assert p.extension in job.Formats();
    }
    forall f | f in job.Formats() && name == FileName(filename, f) ensures top + q in d {
      var p := Variant(w, job.thumbnail(w), f);
      assert p in TreeOf(job, |job.sizes|) && NameOf(filename, p) == q;
    }
  }

  lemma EntryIs(job: Job, d: Nodes, top: Location, filename: string, entries: seq<Entry>, e: Entry)
    requires Rendered(d, top, filename, TreeOf(job, |job.sizes|)) && Lists(d, top, entries) && e in entries
    ensures if e.children.None? then e.name == FileName(filename, job.Format())
            else exists w :: w in job.sizes && IsVariantOf(job, filename, e, w)
  {
    var i :| 0 <= i < |entries| && entries[i] == e;
    TreeOfIs(job, |job.sizes|);
    assert job.sizes[..|job.sizes|] == job.sizes;
    hide TreeOf;
    RenderedAt(d, top, filename, TreeOf(job, |job.sizes|), [e.name]);
    var p :| p in TreeOf(job, |job.sizes|) && [e.name] == NameOf(filename, p) && d[top + [e.name]] == TreeOf(job, |job.sizes|)[p];
    assert |NameOf(filename, p)| == 1;
    assert d[top + [e.name]] == NodeAt(job, p);
    if p.Sized? {
      EntryIsVariant(job, d, top, filename, e, p.width);
    }
  }

  lemma EntryIsVariant(job: Job, d: Nodes, top: Location, filename: string, e: Entry, w: nat)
    requires Rendered(d, top, filename, TreeOf(job, |job.sizes|)) && w in job.sizes
    requires e.name == SizeName(w, job.thumbnail(w)) && e.children.Some? && Lists(d, top + [e.name], e.children.value)
    ensures IsVariantOf(job, filename, e, w)
  {
    hide Rendered, Lists, SizeName;
    ListedNames(d, top + [e.name], e.children.value);
    forall name ensures name in NamesOf(e.children.value) <==> IsFileOf(filename, job.Formats(), name) {
      VariantNames(job, d, top, filename, w, name);
      assert top + [e.name] + [name] == top + [e.name, name];
    }
  }

  lemma EntryOf(d: Nodes, top: Location, entries: seq<Entry>, name: string) returns (e: Entry)
    requires Lists(d, top, entries) && top + [name] in d
    ensures e in entries && e.name == name && (e.children.Some? <==> d[top + [name]].Folder?)
    ensures e.children.Some? ==> Lists(d, top + [name], e.children.value)
  {
    assert Named(entries, name);
    var i :| 0 <= i < |entries| && entries[i].name == name;
    e := entries[i];
  }

  /** A listing of the committed folder, in whatever order. */
  lemma ListingIs(job: Job, d: Nodes, top: Location, filename: string, entries: seq<Entry>)
    requires Rendered(d, top, filename, TreeOf(job, |job.sizes|)) && Lists(d, top, entries)
    ensures TopOk(job, filename, entries)
  {
    ListedNames(d, top, entries);
    forall e | e in entries
      ensures if e.children.None? then e.name == FileName(filename, job.Format())
              else exists w :: w in job.sizes && IsVariantOf(job, filename, e, w)
    {
      EntryIs(job, d, top, filename, entries, e);
    }
    TreeOfIs(job, |job.sizes|);
    assert job.sizes[..|job.sizes|] == job.sizes;
    hide TreeOf, Lists, IsVariantOf;
    var o := Original(job.Format());
    assert o in TreeOf(job, |job.sizes|) && NameOf(filename, o) == [FileName(filename, job.Format())];
    var file := EntryOf(d, top, entries, FileName(filename, job.Format()));
    forall w | w in job.sizes ensures exists e :: e in entries && IsVariantOf(job, filename, e, w) {
      var p := Sized(w, job.thumbnail(w));
      assert p in TreeOf(job, |job.sizes|) && NameOf(filename, p) == [SizeName(w, job.thumbnail(w))];
      var e := EntryOf(d, top, entries, SizeName(w, job.thumbnail(w)));
      EntryIsVariant(job, d, top, filename, e, w);
    }
  }

  // ---------------------------------------------------------------- reading one folder of variants

  lemma {:induction false} ExtensionsGood(files: seq<Entry>, filename: string)
    requires forall e | e in files :: Text.GetFilenameWithoutExtension(e.name) == filename
    ensures Extensions(files, filename).Good? && |Extensions(files, filename).value| == |files|
    ensures forall i | 0 <= i < |files| :: Extensions(files, filename).value[i] == Text.GetExtension(files[i].name)
  {
    if files == [] {
    } else {
      ExtensionsGood(files[..|files| - 1], filename);
    }
  }

  lemma {:induction false} ExtensionsBad(files: seq<Entry>, filename: string, e: Entry)
    requires e in files && Text.GetFilenameWithoutExtension(e.name) != filename
    ensures Extensions(files, filename).Bad?
  {
    if files[|files| - 1] == e {
    } else {
      assert e in files[..|files| - 1];
      ExtensionsBad(files[..|files| - 1], filename, e);
    }
  }

  predicate AllDotFree(formats: seq<string>) {
    forall f | f in formats :: Text.DotFree(f)
  }

  ghost predicate AreFilesOf(files: seq<Entry>, filename: string, formats: seq<string>) {
    && Sorting.Distinct(NamesOf(files))
    && forall name :: name in NamesOf(files) <==> IsFileOf(filename, formats, name)
  }

  lemma FormatOfFile(files: seq<Entry>, filename: string, formats: seq<string>, i: nat) returns (f: string)
    requires AreFilesOf(files, filename, formats) && i < |files|
    ensures f in formats && files[i].name == FileName(filename, f)
  {
    assert NamesOf(files)[i] == files[i].name && files[i].name in NamesOf(files);
    assert IsFileOf(filename, formats, files[i].name);
    f :| f in formats && files[i].name == FileName(filename, f);
  }

  lemma FileOfFormat(files: seq<Entry>, filename: string, formats: seq<string>, f: string) returns (i: nat)
    requires AreFilesOf(files, filename, formats) && f in formats
    ensures i < |files| && files[i].name == FileName(filename, f)
  {
    assert FileName(filename, f) in NamesOf(files);
    i :| i < |files| && NamesOf(files)[i] == FileName(filename, f);
  }

  /** With dot-free formats the extensions are the formats, each once. */
  lemma ExtensionsAre(files: seq<Entry>, filename: string, formats: seq<string>)
    requires AreFilesOf(files, filename, formats) && AllDotFree(formats)
    ensures var r := Extensions(files, filename);
      r.Good? && Sorting.Distinct(r.value) && forall f :: f in r.value <==> f in formats
  {
    forall e | e in files ensures Text.GetFilenameWithoutExtension(e.name) == filename {
      var i :| 0 <= i < |files| && files[i] == e;
      var f := FormatOfFile(files, filename, formats, i);
      Text.JoinedNameComesApart(filename, f);
    }
    ExtensionsGood(files, filename);
    var exts := Extensions(files, filename).value;
    hide Extensions;
    forall i: nat | i < |files| ensures exts[i] in formats && files[i].name == FileName(filename, exts[i]) {
      var f := FormatOfFile(files, filename, formats, i);
      Text.JoinedNameComesApart(filename, f);
    }
    forall i, j | 0 <= i < j < |exts| ensures exts[i] != exts[j] {
      assert NamesOf(files)[i] != NamesOf(files)[j];
    }
    forall f | f in formats ensures f in exts {
      var i := FileOfFormat(files, filename, formats, f);
      FileNamesDiffer(filename, f, exts[i]);
    }
  }

  lemma DottedFormatIsBad(files: seq<Entry>, filename: string, formats: seq<string>)
    requires AreFilesOf(files, filename, formats) && !AllDotFree(formats)
    ensures Extensions(files, filename).Bad?
  {
    var f :| f in formats && !Text.DotFree(f);
    var i := FileOfFormat(files, filename, formats, f);
    Text.JoinedNameComesApart(filename, f);
    ExtensionsBad(files, filename, files[i]);
  }

  predicate Fits32(job: Job, w: nat) {
    w <= Text.INT_MAX && job.thumbnail(w) <= Text.INT_MAX
  }

  function Recovered(job: Job, w: nat): Dim {
    Dim(w, job.thumbnail(w), Sorting.Sort(job.Formats()))
  }

  /** What one folder of variants is read as. */
  lemma VariantIs(job: Job, filename: string, e: Entry, w: nat)
    requires IsVariantOf(job, filename, e, w)
    ensures var r := VariantOf(e, filename);
      && (r.Good? <==> Fits32(job, w) && AllDotFree(job.Formats()))
      && (r.Good? ==> r.value.width == w && r.value.height == job.thumbnail(w)
                      && (r.value == Recovered(job, w) <==> Sorting.Distinct(job.Formats())))
  {
    var files := e.children.value;
    SizeNameComesBack(w, job.thumbnail(w));
    assert AreFilesOf(files, filename, job.Formats());
    if AllDotFree(job.Formats()) {
      ExtensionsAre(files, filename, job.Formats());
      var exts := Extensions(files, filename).value;
      hide Extensions, AllDotFree, ParseDimensions, SizeName, AreFilesOf;
      Sorting.SortOfListing(exts, job.Formats());
    } else {
      DottedFormatIsBad(files, filename, job.Formats());
    }
  }

  // ---------------------------------------------------------------- reading the whole folder

  lemma {:induction false} VariantsGood(entries: seq<Entry>, filename: string)
    requires forall e | e in entries && e.children.Some? :: VariantOf(e, filename).Good?
    ensures var r := Variants(entries, filename);
      r.Good? && forall d :: d in r.value <==> exists e :: e in entries && e.children.Some? && VariantOf(e, filename) == Good(d)
  {
    hide VariantOf;
    if entries == [] {
    } else {
      var before, e := entries[..|entries| - 1], entries[|entries| - 1];
      assert entries == before + [e];
      VariantsGood(before, filename);
    }
  }

  lemma {:induction false} VariantsBad(entries: seq<Entry>, filename: string, e: Entry)
    requires e in entries && e.children.Some? && VariantOf(e, filename).Bad?
    ensures Variants(entries, filename).Bad?
  {
    hide VariantOf;
    if entries[|entries| - 1] == e {
    } else {
      assert e in entries[..|entries| - 1];
      VariantsBad(entries[..|entries| - 1], filename, e);
    }
  }

  predicate WidthsDiffer(dims: seq<Dim>) {
    forall i, j | 0 <= i < j < |dims| :: dims[i].width != dims[j].width
  }

  lemma VariantsBefore(entries: seq<Entry>, filename: string)
    requires entries != [] && Variants(entries, filename).Good?
    ensures Variants(entries[..|entries| - 1], filename).Good?
    ensures entries[|entries| - 1].children.None? ==> Variants(entries, filename) == Variants(entries[..|entries| - 1], filename)
    ensures entries[|entries| - 1].children.Some? ==> VariantOf(entries[|entries| - 1], filename).Good?
    ensures entries[|entries| - 1].children.Some? ==>
      Variants(entries, filename).value
        == Variants(entries[..|entries| - 1], filename).value + [VariantOf(entries[|entries| - 1], filename).value]
  {
    hide VariantOf;
  }

  lemma NoVariants(filename: string)
    ensures Variants([], filename) == Good([])
  {
  }

  lemma NamesBefore(entries: seq<Entry>)
    requires entries != [] && Sorting.Distinct(NamesOf(entries))
    ensures Sorting.Distinct(NamesOf(entries[..|entries| - 1]))
  {
    assert NamesOf(entries[..|entries| - 1]) == NamesOf(entries)[..|entries| - 1];
  }

  lemma {:induction false} VariantsDistinct(job: Job, filename: string, entries: seq<Entry>)
    requires Sorting.Distinct(NamesOf(entries)) && Variants(entries, filename).Good?
    requires forall e | e in entries && e.children.Some? :: exists w :: w in job.sizes && IsVariantOf(job, filename, e, w)
    ensures WidthsDiffer(Variants(entries, filename).value)
    ensures forall d | d in Variants(entries, filename).value ::
      exists e :: e in entries && e.children.Some? && VariantOf(e, filename) == Good(d)
  {
    hide VariantOf, IsVariantOf, Variants, NamesOf, Sorting.Distinct;
    if entries == [] {
      NoVariants(filename);
    } else {
      var before, e := entries[..|entries| - 1], entries[|entries| - 1];
      VariantsBefore(entries, filename);
      NamesBefore(entries);
      VariantsDistinct(job, filename, before);
      if e.children.Some? {
        var dims := Variants(before, filename).value;
        forall i | 0 <= i < |dims| ensures dims[i].width != VariantOf(e, filename).value.width {
          assert dims[i] in dims;
          var g :| g in before && g.children.Some? && VariantOf(g, filename) == Good(dims[i]);
          NamesDistinguish(job, filename, entries, g, dims[i], VariantOf(e, filename).value);
        }
      }
    }
  }

  lemma NamesDistinguish(job: Job, filename: string, entries: seq<Entry>, g: Entry, dg: Dim, de: Dim)
    requires entries != [] && Sorting.Distinct(NamesOf(entries)) && g in entries[..|entries| - 1]
    requires forall e | e in entries && e.children.Some? :: exists w :: w in job.sizes && IsVariantOf(job, filename, e, w)
    requires g.children.Some? && VariantOf(g, filename) == Good(dg)
    requires var e := entries[|entries| - 1]; e.children.Some? && VariantOf(e, filename) == Good(de)
    ensures dg.width != de.width
  {
    hide VariantOf, SizeName, Recovered, AllDotFree;
    var e := entries[|entries| - 1];
    assert e in entries && g in entries;
    var v :| v in job.sizes && IsVariantOf(job, filename, g, v);
    var w :| w in job.sizes && IsVariantOf(job, filename, e, w);
    VariantIs(job, filename, g, v);
    VariantIs(job, filename, e, w);
    assert g.name == SizeName(v, job.thumbnail(v)) && e.name == SizeName(w, job.thumbnail(w));
    hide IsVariantOf;
    var i :| 0 <= i < |entries| - 1 && entries[i] == g;
    assert NamesOf(entries)[i] == g.name && NamesOf(entries)[|entries| - 1] == e.name;
  }

  lemma {:induction false} LastFileIs(entries: seq<Entry>, name: string)
    requires exists e :: e in entries && e.children.None?
    requires forall e | e in entries && e.children.None? :: e.name == name
    ensures LastFile(entries) == Some(name)
  {
    var before, last := entries[..|entries| - 1], entries[|entries| - 1];
    if last.children.None? {
      assert last in entries;
    } else {
      var e :| e in entries && e.children.None?;
      assert e in before;
      LastFileIs(before, name);
    }
  }

  // ---------------------------------------------------------------- the round trip

  /** What a later upload reads is what the owner produced, up to the order of the variants. */
  ghost predicate Recovers(job: Job, filename: string, r: Found) {
    && r.Data? && r.filename == filename && r.extension == job.Format()
    && (forall d :: d in r.dims <==> exists w :: w in job.sizes && d == Recovered(job, w))
    && WidthsDiffer(r.dims)
  }

  /** The original's extension and the formats have no dot, no format is repeated, and all
      dimensions fit an `int`. */
  ghost predicate Readable(job: Job) {
    && Text.DotFree(job.Format())
    && (forall w | w in job.sizes :: Fits32(job, w))
    && (job.sizes != [] ==> AllDotFree(job.Formats()) && Sorting.Distinct(job.Formats()))
  }

  lemma ReadableVariant(job: Job, filename: string, e: Entry, w: nat)
    requires Readable(job) && w in job.sizes && IsVariantOf(job, filename, e, w)
    ensures e.children.Some? && VariantOf(e, filename) == Good(Recovered(job, w))
  {
    assert job.sizes != [];
    VariantIs(job, filename, e, w);
  }

  lemma ReadableVariants(job: Job, filename: string, entries: seq<Entry>)
    requires TopOk(job, filename, entries) && Readable(job)
    ensures var r := Variants(entries, filename);
      r.Good? && forall d :: d in r.value <==> exists w :: w in job.sizes && d == Recovered(job, w)
  {
    forall e | e in entries && e.children.Some?
      ensures exists w :: w in job.sizes && VariantOf(e, filename) == Good(Recovered(job, w))
    {
      var w :| w in job.sizes && IsVariantOf(job, filename, e, w);
      ReadableVariant(job, filename, e, w);
    }
    VariantsGood(entries, filename);
    forall w | w in job.sizes
      ensures exists e :: e in entries && e.children.Some? && VariantOf(e, filename) == Good(Recovered(job, w))
    {
      var e :| e in entries && IsVariantOf(job, filename, e, w);
      ReadableVariant(job, filename, e, w);
    }
    hide *;
  }

  /** What the search makes of the folder, once its original is known. */
  lemma FindIs(job: Job, filename: string, entries: seq<Entry>)
    requires TopOk(job, filename, entries) && Readable(job)
    ensures Variants(entries, filename).Good? ==>
      FindSpec(Some(entries)) == Data(filename, job.Format(), Variants(entries, filename).value)
  {
    LastFileIs(entries, FileName(filename, job.Format()));
    Text.JoinedNameComesApart(filename, job.Format());
    hide TopOk, Variants, LastFile;
  }

  lemma TopVariants(job: Job, filename: string, entries: seq<Entry>)
    requires TopOk(job, filename, entries)
    ensures Sorting.Distinct(NamesOf(entries))
    ensures forall e | e in entries && e.children.Some? :: exists w :: w in job.sizes && IsVariantOf(job, filename, e, w)
  {
    hide IsVariantOf, NamesOf;
  }

  lemma ReadableIsRecovered(job: Job, filename: string, entries: seq<Entry>)
    requires TopOk(job, filename, entries) && Readable(job)
    ensures Recovers(job, filename, FindSpec(Some(entries)))
  {
    hide TopOk, Variants, VariantOf, Recovered, IsVariantOf, NamesOf, FindSpec, Readable;
    FindIs(job, filename, entries);
    ReadableVariants(job, filename, entries);
    TopVariants(job, filename, entries);
    VariantsDistinct(job, filename, entries);
  }

  lemma RecoveredIsReadable(job: Job, filename: string, entries: seq<Entry>)
    requires TopOk(job, filename, entries) && Recovers(job, filename, FindSpec(Some(entries)))
    ensures Readable(job)
  {
    LastFileIs(entries, FileName(filename, job.Format()));
    Text.JoinedNameComesApart(filename, job.Format());
    hide LastFile;
    forall w | w in job.sizes ensures Fits32(job, w) && AllDotFree(job.Formats()) && Sorting.Distinct(job.Formats()) {
      var e :| e in entries && IsVariantOf(job, filename, e, w);
      VariantIs(job, filename, e, w);
      if VariantOf(e, filename).Bad? { VariantsBad(entries, filename, e); }
      OneRecovered(job, filename, entries, e, w);
    }
    if job.sizes != [] { assert job.sizes[0] in job.sizes; }
  }

  lemma OneRecovered(job: Job, filename: string, entries: seq<Entry>, e: Entry, w: nat)
    requires e in entries && IsVariantOf(job, filename, e, w) && Variants(entries, filename).Good?
    requires forall d :: d in Variants(entries, filename).value ==> exists v :: v in job.sizes && d == Recovered(job, v)
    ensures Fits32(job, w) && AllDotFree(job.Formats()) && Sorting.Distinct(job.Formats())
  {
    VariantIs(job, filename, e, w);
    if VariantOf(e, filename).Bad? { VariantsBad(entries, filename, e); }
    forall g | g in entries && g.children.Some? ensures VariantOf(g, filename).Good? {
      if VariantOf(g, filename).Bad? { VariantsBad(entries, filename, g); }
    }
    VariantsGood(entries, filename);
    hide Variants, VariantOf;
    var d := VariantOf(e, filename).value;
    assert d in Variants(entries, filename).value;
    var v :| v in job.sizes && d == Recovered(job, v);
  }

  /** For every committed folder, in whatever order it is listed, the later upload recovers the
      file name, the original's extension and all variants exactly if the job is readable. */
  lemma RoundTripIsExact(job: Job, d: Nodes, top: Location, filename: string, listing: seq<Entry>)
    requires Rendered(d, top, filename, TreeOf(job, |job.sizes|)) && Lists(d, top, listing)
    ensures Recovers(job, filename, FindSpec(Some(listing))) <==> Readable(job)
  {
    ListingIs(job, d, top, filename, listing);
    hide TopOk, Recovers, Readable, FindSpec, TreeOf, Rendered, Lists;
    if Readable(job) {
      ReadableIsRecovered(job, filename, listing);
    } else if Recovers(job, filename, FindSpec(Some(listing))) {
      RecoveredIsReadable(job, filename, listing);
    }
  }
}
