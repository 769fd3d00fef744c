/** What an accepted configuration file says about the uploads it is used for: when their sizes can
    be computed at all, and when their tasks fit the 16-bit counter. */
module ConfiguredUploads {
  import opened Fanout
  import FanoutInvariant
  import FanoutCapacity
  import TaskGroups
  import Sizes
  import SizeText
  import ConfigFold
  import opened ConfigTheorems

  /** The job of an image of width `original` under a configuration: its sizes are those of
      `get_sizes`, a set, and its formats those of `get_formats`. */
  ghost predicate IsConfigured(cfg: ConfigFold.Config, job: Job, original: nat) {
    && Sizes.AllStep(cfg.sizes, original)
    && (forall i, j | 0 <= i < j < |job.sizes| :: job.sizes[i] != job.sizes[j])
    && (forall w :: w in job.sizes <==> w in Sizes.Union(cfg.sizes, original))
    && job.Formats() == GetFormats(cfg, job.Format())
  }

  lemma {:induction false} ParsedPercentages(pieces: seq<string>)
    requires SizeText.ParsePieces(pieces).Fine?
    ensures forall spec | spec in SizeText.ParsePieces(pieces).value :: spec.isPercent ==> 0 < spec.decrement < 100
  {
    hide SizeText.ParseSpec;
    if pieces == [] {
    } else {
      ParsedPercentages(pieces[..|pieces| - 1]);
      SizeText.AcceptedPercentage(pieces[|pieces| - 1]);
    }
  }

  /** The sizes of an accepted configuration can be computed for an image exactly if none of them
      is a percentage with limit 0. */
  lemma ConfiguredSizesAreExact(bytes: ConfigFold.Bytes, lines: seq<string>, original: nat)
    requires ConfigFold.ParseLines(bytes, lines).Fine? && original <= Sizes.MAX_WIDTH
    ensures var cfg := ConfigFold.ParseLines(bytes, lines).value;
      Sizes.AllStep(cfg.sizes, original) <==> forall spec | spec in cfg.sizes :: !(spec.isPercent && spec.limit == 0)
  {
    ParseIsExact(bytes, lines);
    var cfg := FromMap(bytes, ToMap(lines));
    var value := Lookup(ToMap(lines), ConfigFold.SizeList);
    if value.Some? && SizeText.ParsePieces(SizeText.Split(value.value)).Fine? {
      ParsedPercentages(SizeText.Split(value.value));
    }
    hide ConfigFold.ParseLines, ToMap, SizeText.ParsePieces, SizeText.Split;
    assert forall spec | spec in cfg.sizes :: spec.isPercent ==> 0 < spec.decrement < 100;
    hide FromMap;
    forall i | 0 <= i < |cfg.sizes| ensures
      (cfg.sizes[i].decrement > 0 ==> Sizes.Steps(cfg.sizes[i], original)) <==> !(cfg.sizes[i].isPercent && cfg.sizes[i].limit == 0)
    {
      assert cfg.sizes[i] in cfg.sizes;
    }
  }

  lemma {:induction false} ListSize(s: seq<nat>, all: set<nat>)
    requires (forall i, j | 0 <= i < j < |s| :: s[i] != s[j]) && forall w | w in s :: w in all
    ensures |s| <= |all|
  {
    if s == [] {
    } else {
      var last := s[|s| - 1];
      assert last in all && forall w | w in s[..|s| - 1] :: w in all - {last};
      ListSize(s[..|s| - 1], all - {last});
    }
  }

  /** The counts of the size specifications, and the two lists of formats that apply, bound the
      number of tasks of an upload, and so whether the counter suffices. */
  lemma ConfigurationSuffices(cfg: ConfigFold.Config, job: Job, original: nat)
    requires IsConfigured(cfg, job, original)
    ensures var n, f := Sizes.CountAll(cfg.sizes, original), |ListOf(cfg, job.Format())| + |ListOf(cfg, ALL_FORMATS_KEY)|;
      && FanoutInvariant.MaxTasks(job) <= 2 + n * (1 + f)
      && (2 + n * (1 + f) <= TaskGroups.MAX_INT16 ==> FanoutCapacity.CounterIsExact(job))
  {
    hide FanoutCapacity.CounterIsExact, Sizes.Union, Sizes.CountAll, ListOf;
    ListSize(job.sizes, Sizes.Union(cfg.sizes, original));
    Sizes.UnionSize(cfg.sizes, original);
    Sizes.MulMono(|job.sizes|, Sizes.CountAll(cfg.sizes, original), 1 + |job.Formats()|);
    FanoutCapacity.CounterCapacityIsExact(job);
  }
}
