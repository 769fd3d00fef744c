/** `find_existing_data` of src/image_processing.hpp: the reply of a later upload, rebuilt from
    the names in the committed folder. */
module ExistingData {
  import opened Fanout
  import opened StorageFs
  import Text
  import Sorting

  datatype Failure = NoOriginal | InvalidDimensions | BadNumber(error: Text.NumberError) | FilenameMismatch

  datatype Found = NoFolder | Data(filename: string, extension: string, dims: seq<Dim>) | Fails(error: Failure)

  datatype Result<+V> = Good(value: V) | Bad(error: Failure)

  /** A negative `int` stored in a `dimension_t`. */
  function AsUnsigned(x: int): nat
    requires Text.INT_MIN <= x
  {
    if x < 0 then x + 0x1_0000_0000_0000_0000 else x
  }

  function ParseSize(s: string): Result<nat> {
    match Text.ParseInt(s)
    case Number(v) => Good(AsUnsigned(v))
    case NotANumber(e) => Bad(BadNumber(e))
  }

  /** `width_height_from_string`. */
  function ParseDimensions(s: string): Result<(nat, nat)> {
    match Text.Find(s, 'x')
    case None => Bad(InvalidDimensions)
    case Some(i) =>
      match ParseSize(s[..i])
      case Bad(e) => Bad(e)
      case Good(w) =>
        match ParseSize(s[i + 1..])
        case Bad(e) => Bad(e)
        case Good(h) => Good((w, h))
  }

  /** The name of the last file among the entries. */
  function LastFile(entries: seq<Entry>): Option<string> {
    if entries == [] then None
    else if entries[|entries| - 1].children.None? then Some(entries[|entries| - 1].name)
    else LastFile(entries[..|entries| - 1])
  }

  /** The extensions of the files of one size, or the first name that does not match. */
  function Extensions(entries: seq<Entry>, filename: string): Result<seq<string>> {
    if entries == [] then Good([]) else
    match Extensions(entries[..|entries| - 1], filename)
    case Bad(e) => Bad(e)
    case Good(before) =>
      var name := entries[|entries| - 1].name;
      if Text.GetFilenameWithoutExtension(name) != filename then Bad(FilenameMismatch)
      else Good(before + [Text.GetExtension(name)])
  }

  function VariantOf(entry: Entry, filename: string): Result<Dim>
    requires entry.children.Some?
  {
    match ParseDimensions(entry.name)
    case Bad(e) => Bad(e)
    case Good(size) =>
      match Extensions(entry.children.value, filename)
      case Bad(e) => Bad(e)
      case Good(extensions) => Good(Dim(size.0, size.1, Sorting.Sort(extensions)))
  }

  function Variants(entries: seq<Entry>, filename: string): Result<seq<Dim>> {
    if entries == [] then Good([]) else
    match Variants(entries[..|entries| - 1], filename)
    case Bad(e) => Bad(e)
    case Good(before) =>
      var entry := entries[|entries| - 1];
      if entry.children.None? then Good(before) else
      match VariantOf(entry, filename)
      case Bad(e) => Bad(e)
      case Good(d) => Good(before + [d])
  }

  function FindSpec(listing: Option<seq<Entry>>): Found {
    if listing.None? then NoFolder else
    match LastFile(listing.value)
    case None => Fails(NoOriginal)
    case Some(name) =>
      match Variants(listing.value, Text.GetFilenameWithoutExtension(name))
      case Bad(e) => Fails(e)
      case Good(dims) => Data(Text.GetFilenameWithoutExtension(name), Text.GetExtension(name), dims)
  }

  /** The fields of the processor that `find_existing_data` fills in. */
  class Answer {
    var filename: string
    var extension: string
    var dims: seq<Dim>

    constructor ()
      ensures dims == []
    {
      filename, extension, dims := "", "", [];
    }

    /** `find_existing_data`: looks for the folder of a hash, and reads it if there is one. */
    method FindExistingData(storage: StorageFs, hash: string) returns (r: Found)
      requires dims == []
      modifies this
      ensures r.NoFolder? <==> storage.dataDir + [hash] !in storage.disk.nodes
      ensures !r.NoFolder? ==> exists entries ::
                Lists(storage.disk.nodes, storage.dataDir + [hash], entries) && r == FindSpec(Some(entries))
      ensures r.Data? ==> filename == r.filename && extension == r.extension && dims == r.dims
      ensures r.NoFolder? ==> filename == old(filename) && extension == old(extension) && dims == []
    {
      hide Lists;
      var folder := storage.WalkFolder([hash]);
      if folder.None? { return NoFolder; }
      r := Read(folder.value);
    }

    /** Fills the fields from the listing; an exception is the `Fails` result. */
    method Read(entries: seq<Entry>) returns (r: Found)
      requires dims == []
      modifies this
      ensures r == FindSpec(Some(entries)) && !r.NoFolder?
      ensures r.Data? ==> filename == r.filename && extension == r.extension && dims == r.dims
    {
      hide Extensions, ParseDimensions, VariantOf, Text.GetFilenameWithoutExtension, Text.GetExtension;
      var original: Option<string> := None;
      var i := 0;
      while i < |entries|
        invariant 0 <= i <= |entries| && original == LastFile(entries[..i])
      {
        assert entries[..i + 1][..i] == entries[..i];
        if entries[i].children.None? { original := Some(entries[i].name); }
        i := i + 1;
      }
      assert entries[..|entries|] == entries;
      if original.None? { return Fails(NoOriginal); }
      filename := Text.GetFilenameWithoutExtension(original.value);
      extension := Text.GetExtension(original.value);

      i := 0;
      while i < |entries|
        invariant 0 <= i <= |entries| && Variants(entries[..i], filename) == Good(dims)
        invariant filename == Text.GetFilenameWithoutExtension(original.value)
        invariant extension == Text.GetExtension(original.value)
      {
        assert entries[..i + 1][..i] == entries[..i];
        if entries[i].children.Some? {
          var variant := ReadVariant(entries[i], filename);
          if variant.Bad? {
            VariantsStop(entries, filename, i + 1);
            return Fails(variant.error);
          }
          dims := dims + [variant.value];
        }
        i := i + 1;
      }
      r := Data(filename, extension, dims);
    }
  }

  /** One folder of variants. */
  method ReadVariant(entry: Entry, filename: string) returns (r: Result<Dim>)
    requires entry.children.Some?
    ensures r == VariantOf(entry, filename)
  {
    var size := ParseDimensions(entry.name);
    if size.Bad? { return Bad(size.error); }
    var files, formats, j := entry.children.value, [], 0;
    while j < |files|
      invariant 0 <= j <= |files| && Extensions(files[..j], filename) == Good(formats)
    {
      assert files[..j + 1][..j] == files[..j];
      if Text.GetFilenameWithoutExtension(files[j].name) != filename {
        ExtensionsStop(files, filename, j + 1);
        return Bad(FilenameMismatch);
      }
      formats := formats + [Text.GetExtension(files[j].name)];
      j := j + 1;
    }
    assert files[..|files|] == files;
    r := Good(Dim(size.value.0, size.value.1, Sorting.Sort(formats)));
  }

  // ---------------------------------------------------------------- what the search finds

  /** Of several files directly in the folder the last one listed is taken for the original. */
  lemma {:induction false} LastFileIs(entries: seq<Entry>, i: nat)
    requires i < |entries| && entries[i].children.None?
    requires forall j | i < j < |entries| :: entries[j].children.Some?
    ensures LastFile(entries) == Some(entries[i].name)
  {
    if i < |entries| - 1 { LastFileIs(entries[..|entries| - 1], i); }
  }

  lemma {:induction false} NoFileIs(entries: seq<Entry>)
    requires forall e | e in entries :: e.children.Some?
    ensures LastFile(entries) == None
  {
    if entries != [] {
      assert entries[|entries| - 1] in entries;
      NoFileIs(entries[..|entries| - 1]);
    }
  }

  /** The folder entries before the `i`-th are all readable, and the `i`-th is not. */
  ghost predicate FirstBad(entries: seq<Entry>, filename: string, i: nat, error: Failure) {
    && i < |entries| && entries[i].children.Some? && VariantOf(entries[i], filename) == Bad(error)
    && forall j | 0 <= j < i :: entries[j].children.Some? ==> VariantOf(entries[j], filename).Good?
  }

  lemma {:induction false} VariantsAre(entries: seq<Entry>, filename: string)
    ensures Variants(entries, filename).Good? <==>
              forall e | e in entries && e.children.Some? :: VariantOf(e, filename).Good?
    ensures forall i: nat, error :: FirstBad(entries, filename, i, error) ==> Variants(entries, filename) == Bad(error)
  {
    hide VariantOf;
    if entries != [] {
      var before, last := entries[..|entries| - 1], entries[|entries| - 1];
      VariantsAre(before, filename);
      assert entries == before + [last];
      forall i: nat, error | FirstBad(entries, filename, i, error) ensures Variants(entries, filename) == Bad(error) {
        if i < |before| { assert FirstBad(before, filename, i, error); }
      }
    }
  }

  /** The `i`-th entry is the last file directly in the folder. */
  predicate IsOriginal(entries: seq<Entry>, i: nat)
    requires i < |entries|
  {
    entries[i].children.None? && forall j | i < j < |entries| :: entries[j].children.Some?
  }

  lemma {:induction false} SomeOriginal(entries: seq<Entry>) returns (i: nat)
    requires exists e :: e in entries && e.children.None?
    ensures i < |entries| && IsOriginal(entries, i)
  {
    if entries[|entries| - 1].children.None? {
      i := |entries| - 1;
    } else {
      assert entries == entries[..|entries| - 1] + [entries[|entries| - 1]];
      i := SomeOriginal(entries[..|entries| - 1]);
    }
  }

  /** The outcomes of the search: no folder, a folder without a file, or the reading of a folder. */
  lemma SearchIsExact(listing: Option<seq<Entry>>)
    ensures FindSpec(listing).NoFolder? <==> listing.None?
    ensures FindSpec(listing) == Fails(NoOriginal) <==> listing.Some? && forall e | e in listing.value :: e.children.Some?
  {
    if listing.Some? {
      var entries := listing.value;
      if forall e | e in entries :: e.children.Some? {
        NoFileIs(entries);
      } else {
        var i := SomeOriginal(entries);
        LastFileIs(entries, i);
        NoVariantFails(entries, Text.GetFilenameWithoutExtension(entries[i].name));
      }
    }
  }

  lemma {:induction false} NoVariantFails(entries: seq<Entry>, filename: string)
    ensures Variants(entries, filename) != Bad(NoOriginal)
  {
    if entries != [] {
      NoVariantFails(entries[..|entries| - 1], filename);
      var last := entries[|entries| - 1];
      if last.children.Some? { ExtensionsAre(last.children.value, filename); }
      hide Extensions, Text.ParseInt;
    }
  }

  /** The reading: the last file is the original, whose name every other file must have; it succeeds
      if every subfolder can be read, and otherwise fails as the first does that cannot. */
  lemma ReadingIs(entries: seq<Entry>, i: nat)
    requires i < |entries| && IsOriginal(entries, i)
    ensures var r, name := FindSpec(Some(entries)), entries[i].name;
      var filename := Text.GetFilenameWithoutExtension(name);
      && (r.Data? <==> forall e | e in entries && e.children.Some? :: VariantOf(e, filename).Good?)
      && (r.Data? ==> r.filename == filename && r.extension == Text.GetExtension(name))
      && (forall j: nat, error | FirstBad(entries, filename, j, error) :: r == Fails(error))
  {
    hide VariantOf, Text.GetFilenameWithoutExtension, Text.GetExtension, LastFile, Variants, FirstBad;
    LastFileIs(entries, i);
    VariantsAre(entries, Text.GetFilenameWithoutExtension(entries[i].name));
  }

  /** A number in a size name: its digits; a negative one as the huge unsigned number it becomes; and
      an error if there are no digits, or too many. */
  lemma SizeIsRead(digits: string, rest: string)
    requires digits != "" && Text.AllDigits(digits) && (rest != "" ==> !Text.IsDigit(rest[0]))
    ensures var n := Text.Value(digits);
      && ParseSize(digits + rest) == (if n <= Text.INT_MAX then Good(n) else Bad(BadNumber(Text.OutOfRange)))
      && (0 < n <= Text.INT_MAX + 1 ==> ParseSize("-" + digits + rest) == Good(0x1_0000_0000_0000_0000 - n))
      && (n > Text.INT_MAX + 1 ==> ParseSize("-" + digits + rest) == Bad(BadNumber(Text.OutOfRange)))
      && ParseSize("-" + rest) == Bad(BadNumber(Text.InvalidArgument))
      && (rest == "" || rest[0] != '-' ==> ParseSize(rest) == Bad(BadNumber(Text.InvalidArgument)))
  {
    hide Text.ParseInt, Text.Value;
    Text.DigitsAreRead(digits, rest);
    Text.NegativeDigitsAreRead(digits, rest);
    Text.NoDigitIsInvalid(rest);
  }

  /** The name of a size without an `x` is refused. Otherwise the digits before the first `x` are
      the width and those behind it the height, whatever follows them. */
  lemma DimensionsAre(width: string, junk: string, height: string, rest: string)
    requires width != "" && height != "" && Text.AllDigits(width) && Text.AllDigits(height) && 'x' !in junk
    requires (junk != "" ==> !Text.IsDigit(junk[0])) && (rest != "" ==> !Text.IsDigit(rest[0]))
    ensures 'x' !in width + junk && ParseDimensions(width + junk) == Bad(InvalidDimensions)
    ensures ParseDimensions(width + junk + "x" + height + rest) ==
      if Text.Value(width) > Text.INT_MAX || Text.Value(height) > Text.INT_MAX then Bad(BadNumber(Text.OutOfRange))
      else Good((Text.Value(width), Text.Value(height)))
  {
    hide Text.ParseInt, Text.Value;
    var a, b := width + junk, height + rest;
    assert forall i | 0 <= i < |width| :: Text.IsDigit(width[i]);
    Text.DigitsAreRead(width, junk);
    Text.DigitsAreRead(height, rest);
    Text.FindIs(a, 'x', b);
    var s := width + junk + "x" + height + rest;
    assert s == a + ['x'] + b && s[..|a|] == a && s[|a| + 1..] == b;
  }

  /** A file of one size must have the name of the original. */
  lemma {:induction false} ExtensionsAre(files: seq<Entry>, filename: string)
    ensures if forall f | f in files :: Text.GetFilenameWithoutExtension(f.name) == filename
            then Extensions(files, filename).Good? && |Extensions(files, filename).value| == |files|
              && forall i | 0 <= i < |files| :: Extensions(files, filename).value[i] == Text.GetExtension(files[i].name)
            else Extensions(files, filename) == Bad(FilenameMismatch)
  {
    hide Text.GetFilenameWithoutExtension, Text.GetExtension;
    if files != [] {
      var before, last := files[..|files| - 1], files[|files| - 1];
      ExtensionsAre(before, filename);
      assert files == before + [last];
    }
  }

  /** The first failure is the result. */
  lemma {:induction false} ExtensionsStop(entries: seq<Entry>, filename: string, n: nat)
    requires n <= |entries| && Extensions(entries[..n], filename).Bad?
    ensures Extensions(entries, filename) == Extensions(entries[..n], filename)
    decreases |entries|
  {
    if n == |entries| {
      assert entries[..n] == entries;
    } else {
      var shorter := entries[..|entries| - 1];
      assert shorter[..n] == entries[..n];
      ExtensionsStop(shorter, filename, n);
    }
  }

  lemma {:induction false} VariantsStop(entries: seq<Entry>, filename: string, n: nat)
    requires n <= |entries| && Variants(entries[..n], filename).Bad?
    ensures Variants(entries, filename) == Variants(entries[..n], filename)
    decreases |entries|
  {
    if n == |entries| {
      assert entries[..n] == entries;
    } else {
      var shorter := entries[..|entries| - 1];
      assert shorter[..n] == entries[..n];
      VariantsStop(shorter, filename, n);
    }
  }
}
