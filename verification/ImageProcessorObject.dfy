/** `image_processor` as an object: `load_image`, `resize` and `save_to_format` as loops over its
    fields, and the whole work done by one thread. Module FanoutTheorems compares every
    interleaving of the tasks with its result. */
module ImageProcessorObject {
  import opened Fanout
  import FanoutTheorems

  class ImageProcessor {
    const job: Job
    var dimensions: seq<Dim>
    var original: string
    var staged: bool
    var tree: Tree

    constructor (job: Job)
      ensures this.job == job && dimensions == [] && original == job.extension && !staged && tree == map[]
    {
      this.job := job;
      dimensions, original, staged, tree := [], job.extension, false, map[];
    }

    /** Stages the original and lists the widths; their heights and formats are not known yet. */
    method LoadImage()
      requires dimensions == [] && original == job.extension
      modifies this
      ensures staged && original == job.Format()
      ensures tree == old(tree)[Original(job.Format()) := File(job.data)]
      ensures dimensions == Listed(job, |job.sizes|)
    {
      staged := true;
      if job.detected.Some? { original := job.detected.value; }
      tree := tree[Original(original) := File(job.data)];
      var k := 0;
      while k < |job.sizes|
        modifies `dimensions
        invariant 0 <= k <= |job.sizes| && dimensions == Listed(job, k)
      {
        dimensions := dimensions + [Dim(job.sizes[k], 0, [])];
        k := k + 1;
      }
    }

    /** Sets the height and the formats of one width, and makes its folder. */
    method Resize(index: nat)
      requires index < |dimensions| && dimensions[index].formats == []
      modifies `dimensions, `tree
      ensures var w := old(dimensions)[index].width;
        && dimensions == old(dimensions)[index := Dim(w, job.thumbnail(w), job.formats(original))]
        && tree == old(tree)[Sized(w, job.thumbnail(w)) :=
                             if Sized(w, job.thumbnail(w)) in old(tree) then old(tree)[Sized(w, job.thumbnail(w))] else Folder]
    {
      var d := dimensions[index];
      var w, h := d.width, job.thumbnail(d.width);
      dimensions := dimensions[index := d.(height := h)];
      if Sized(w, h) !in tree { tree := tree[Sized(w, h) := Folder]; }
      var listed, k := job.formats(original), 0;
      while k < |listed|
        modifies `dimensions
        invariant 0 <= k <= |listed| && dimensions == old(dimensions)[index := Dim(w, h, listed[..k])]
      {
        assert listed[..k + 1] == listed[..k] + [listed[k]];
        dimensions := dimensions[index := dimensions[index].(formats := dimensions[index].formats + [listed[k]])];
        k := k + 1;
      }
      assert listed[..k] == listed;
    }

    /** Writes one file; its folder must exist. */
    method SaveToFormat(index: nat, format: nat) returns (ok: bool)
      requires index < |dimensions| && format < |dimensions[index].formats|
      modifies `tree
      ensures var d := dimensions[index];
        && ok == (Sized(d.width, d.height) in old(tree))
        && tree == if ok then old(tree)[Variant(d.width, d.height, d.formats[format]) := File(job.encode(d.width, d.formats[format]))]
                   else old(tree)
    {
      var d := dimensions[index];
      ok := Sized(d.width, d.height) in tree;
      if ok { tree := tree[Variant(d.width, d.height, d.formats[format]) := File(job.encode(d.width, d.formats[format]))]; }
    }

    /** All formats of one width. */
    method SaveAllFormats(index: nat)
      requires index < |dimensions| && index < |job.sizes| && dimensions[index] == DimsOf(job)[index]
      requires Sized(job.sizes[index], job.thumbnail(job.sizes[index])) in tree
      modifies `tree
      ensures tree == SaveAll(job, old(tree), job.sizes[index], |job.Formats()|)
    {
      var j, w := 0, job.sizes[index];
      while j < |dimensions[index].formats|
        modifies `tree
        invariant 0 <= j <= |job.Formats()| && tree == SaveAll(job, old(tree), w, j)
        invariant Sized(w, job.thumbnail(w)) in tree
      {
        var ok := SaveToFormat(index, j);
        j := j + 1;
      }
    }

    /** One width: resized and saved in all formats. */
    method ProcessOne(index: nat)
      requires index < |dimensions| && index < |job.sizes| && original == job.Format()
      requires dimensions[index] == Dim(job.sizes[index], 0, []) && tree == TreeOf(job, index)
      modifies `dimensions, `tree
      ensures dimensions == old(dimensions)[index := DimsOf(job)[index]] && tree == TreeOf(job, index + 1)
    {
      var w, h := job.sizes[index], job.thumbnail(job.sizes[index]);
      FanoutTheorems.TreeOfIs(job, index);
      assert Sized(w, h) in tree ==> tree[Sized(w, h)] == Folder;
      ghost var before := tree;
      hide TreeOf;
      Resize(index);
      assert tree == before[Sized(w, h) := Folder];
      SaveAllFormats(index);
      TreeStep(job, index);
    }

    /** The same work done by one thread, one image at a time, gives the sequential program's
        dimensions and tree. */
    method Process()
      requires dimensions == [] && original == job.extension && tree == map[]
      modifies this
      ensures dimensions == DimsOf(job) && tree == TreeOf(job, |job.sizes|)
    {
      LoadImage();
      assert tree == TreeOf(job, 0);
      hide TreeOf;
      var i := 0;
      while i < |dimensions|
        modifies `dimensions, `tree
        invariant 0 <= i <= |job.sizes| == |dimensions| && original == job.Format()
        invariant forall k | 0 <= k < |job.sizes| :: dimensions[k] == if k < i then DimsOf(job)[k] else Dim(job.sizes[k], 0, [])
        invariant tree == TreeOf(job, i)
      {
        ProcessOne(i);
        i := i + 1;
      }
    }
  }

  lemma TreeStep(job: Job, n: nat)
    requires n < |job.sizes|
    ensures var w := job.sizes[n];
      TreeOf(job, n + 1) == SaveAll(job, TreeOf(job, n)[Sized(w, job.thumbnail(w)) := Folder], w, |job.Formats()|)
  {
  }

  /** The first `k` widths as `load_image` lists them. */
  function Listed(job: Job, k: nat): seq<Dim>
    requires k <= |job.sizes|
  {
    seq(k, i requires 0 <= i < k => Dim(job.sizes[i], 0, []))
  }
}
