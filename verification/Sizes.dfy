/** The widths an image is scaled to: `size_spec::get_sizes` and `size_specs::get_sizes` of
    src/config.hpp, on 64-bit unsigned arithmetic. */
module Sizes {

  const TWO_64 := 0x1_0000_0000_0000_0000
  const MAX_WIDTH := 0x7fff_ffff  // an image's width comes from an `int`

  function Wrap(x: int): nat {
    x % TWO_64
  }

  /** `div_round_up`, whose sum may wrap around. */
  function DivRoundUp(a: nat, b: nat): nat
    requires b > 0
  {
    Wrap(a + b - 1) / b
  }

  /** `size_spec`. A `decrement` of 0 means the single value `limit`. */
  datatype SizeSpec = SizeSpec(limit: nat, decrement: nat, isPercent: bool)

  /** What `size_spec::parse` accepts of the documented grammar. */
  predicate IsDocumented(spec: SizeSpec) {
    1 <= spec.limit <= MAX_WIDTH && spec.decrement <= MAX_WIDTH && (spec.isPercent ==> 0 < spec.decrement < 100)
  }

  function Decrement(spec: SizeSpec, width: nat): nat {
    if spec.isPercent then DivRoundUp(Wrap(width * spec.decrement), 100) else spec.decrement
  }

  /** One turn of the loop: the next width, or none if the loop is left. */
  datatype Turn = Next(width: nat) | Leave

  function TurnOf(spec: SizeSpec, width: nat): Turn {
    if Decrement(spec, width) > width then Leave else Next(width - Decrement(spec, width))
  }

  /** The width after `k` turns, as long as the loop goes on. */
  function WidthAfter(spec: SizeSpec, original: nat, k: nat): Turn {
    if k == 0 then (if original >= spec.limit then Next(original) else Leave) else
    match WidthAfter(spec, original, k - 1)
    case Leave => Leave
    case Next(w) =>
      match TurnOf(spec, w)
      case Leave => Leave
      case Next(w') => if w' >= spec.limit then Next(w') else Leave
  }

  // ---------------------------------------------------------------- one step

  /** The percentage step, with no wrap-around for the width of an image: it goes down to
      floor(width * (100 - d) / 100). */
  lemma PercentStep(spec: SizeSpec, w: nat)
    requires spec.isPercent && 0 < spec.decrement < 100 && w <= MAX_WIDTH
    ensures Decrement(spec, w) <= w && (w > 0 ==> Decrement(spec, w) > 0)
    ensures w * (100 - spec.decrement) - 99 <= 100 * (w - Decrement(spec, w)) <= w * (100 - spec.decrement)
  {
    var d, x := spec.decrement, w * spec.decrement;
    Times(w, d);
    assert x + 99 < TWO_64;
    assert Decrement(spec, w) == (x + 99) / 100;
  }

  lemma Times(w: nat, d: nat)
    requires 0 < d < 100
    ensures w <= w * d <= 99 * w && w * (100 - d) == 100 * w - w * d
  {
    MulMono(1, d, w);
    MulMono(d, 99, w);
  }

  /** Every turn makes progress, unless the width is 0 and the step a percentage. */
  lemma StepDown(spec: SizeSpec, w: nat)
    requires w <= MAX_WIDTH && spec.decrement > 0 && (spec.isPercent ==> spec.decrement < 100)
    ensures Decrement(spec, w) == 0 <==> spec.isPercent && w == 0
  {
    if spec.isPercent { PercentStep(spec, w); }
  }

  // ---------------------------------------------------------------- termination

  ghost predicate Terminates(spec: SizeSpec, original: nat) {
    exists k :: WidthAfter(spec, original, k).Leave?
  }

  lemma {:induction false} WidthsShrink(spec: SizeSpec, original: nat, k: nat)
    requires original <= MAX_WIDTH && spec.decrement > 0 && (spec.isPercent ==> spec.decrement < 100)
    ensures var t := WidthAfter(spec, original, k);
      t.Next? ==> spec.limit <= t.width <= original && (!spec.isPercent || t.width > 0 ==> t.width + k <= original)
  {
    if k == 0 {
    } else {
      WidthsShrink(spec, original, k - 1);
      var t := WidthAfter(spec, original, k - 1);
      if t.Next? { StepDown(spec, t.width); }
    }
  }

  /** With limit 0 the percentage loop never leaves: it ends up turning at width 0. */
  lemma {:induction false} PercentNeverLeaves(spec: SizeSpec, original: nat, k: nat)
    requires original <= MAX_WIDTH && spec.isPercent && 0 < spec.decrement < 100 && spec.limit == 0
    ensures WidthAfter(spec, original, k).Next?
  {
    if k == 0 {
    } else {
      PercentNeverLeaves(spec, original, k - 1);
      WidthsShrink(spec, original, k - 1);
      PercentStep(spec, WidthAfter(spec, original, k - 1).width);
    }
  }

  /** The loop ends exactly if it is not a percentage with limit 0. */
  lemma TerminationIsExact(spec: SizeSpec, original: nat)
    requires original <= MAX_WIDTH && spec.decrement > 0 && (spec.isPercent ==> spec.decrement < 100)
    ensures Terminates(spec, original) <==> !(spec.isPercent && spec.limit == 0)
  {
    if spec.isPercent && spec.limit == 0 {
      forall k ensures WidthAfter(spec, original, k).Next? {
        PercentNeverLeaves(spec, original, k);
      }
    } else {
      WidthsShrink(spec, original, original + 1);
      assert WidthAfter(spec, original, original + 1).Leave?;
    }
  }

  // ---------------------------------------------------------------- the sequence

  predicate Steps(spec: SizeSpec, w: nat) {
    w <= MAX_WIDTH && spec.decrement > 0 && (spec.isPercent ==> spec.decrement < 100 && spec.limit > 0)
  }

  /** The widths of a dynamic specification, from the original down. */
  function Sequence(spec: SizeSpec, w: nat): seq<nat>
    requires Steps(spec, w)
    decreases w
  {
    if w < spec.limit then []
    else
      StepDown(spec, w);
      match TurnOf(spec, w)
      case Leave => [w]
      case Next(w') => [w] + Sequence(spec, w')
  }

  ghost function Elements(s: seq<nat>): set<nat> {
    set w | w in s
  }

  /** The widths of one specification. */
  ghost function SizesOf(spec: SizeSpec, original: nat): set<nat>
    requires spec.decrement > 0 ==> Steps(spec, original)
  {
    if spec.decrement == 0 then {spec.limit} else Elements(Sequence(spec, original))
  }

  lemma SequenceUnfolds(spec: SizeSpec, w: nat, decrement: nat)
    requires Steps(spec, w) && w >= spec.limit && decrement == Decrement(spec, w)
    ensures Sequence(spec, w) == if decrement > w then [w] else [w] + Sequence(spec, w - decrement)
  {
    hide Decrement;
  }

  lemma SequenceEnds(spec: SizeSpec, w: nat)
    requires Steps(spec, w) && w < spec.limit
    ensures Sequence(spec, w) == []
  {
  }

  /** What a specification asks for: a fixed size is that size, whatever the image's own width; a
      dynamic one asks for the widths after any number of turns of the loop. */
  ghost predicate IsWidthOf(spec: SizeSpec, original: nat, w: nat) {
    if spec.decrement == 0 then w == spec.limit else exists k: nat :: WidthAfter(spec, original, k) == Next(w)
  }

  lemma SizesOfAre(spec: SizeSpec, original: nat)
    requires spec.decrement > 0 ==> Steps(spec, original)
    ensures forall w: nat :: w in SizesOf(spec, original) <==> IsWidthOf(spec, original, w)
  {
    if spec.decrement > 0 {
      var s := Sequence(spec, original);
      forall w: nat ensures w in Elements(s) <==> IsWidthOf(spec, original, w) {
        if w in s {
          var k: nat :| k < |s| && s[k] == w;
          SequenceIsLoop(spec, original, k);
        }
        if k: nat :| WidthAfter(spec, original, k) == Next(w) { SequenceIsLoop(spec, original, k); }
      }
    }
  }

  /** `size_spec::get_sizes`: adds its widths to `result`. */
  method GetSizes(spec: SizeSpec, original: nat, result: set<nat>) returns (sizes: set<nat>)
    requires spec.decrement > 0 ==> Steps(spec, original)
    ensures sizes == result + SizesOf(spec, original)
    ensures forall w: nat :: w in sizes <==> w in result || IsWidthOf(spec, original, w)
  {
    SizesOfAre(spec, original);
    hide Sequence, IsWidthOf;
    sizes := result;
    if spec.decrement == 0 {
      sizes := sizes + {spec.limit};
      return;
    }
    var width: nat := original;
    ghost var before: seq<nat> := [];
    while width >= spec.limit
      invariant Steps(spec, width)
      invariant sizes == result + Elements(before)
      invariant Sequence(spec, original) == before + Sequence(spec, width)
      decreases width
    {
      StepDown(spec, width);
      sizes := sizes + {width};
      ghost var earlier := before;
      before := before + [width];
      assert Elements(before) == Elements(earlier) + {width};
      var decrement: nat := spec.decrement;
      if spec.isPercent { decrement := DivRoundUp(Wrap(width * decrement), 100); }
      SequenceUnfolds(spec, width, decrement);
      if decrement > width {
        assert Sequence(spec, original) == before;
        return;
      }
      width := width - decrement;
    }
    SequenceEnds(spec, width);
    assert Sequence(spec, original) == before;
  }

  /** The sequence starts at the original width, goes strictly down and stays above the limit. */
  lemma {:induction false} SequenceGoesDown(spec: SizeSpec, w: nat)
    requires Steps(spec, w)
    ensures forall i | 0 <= i < |Sequence(spec, w)| :: spec.limit <= Sequence(spec, w)[i] <= w
    ensures forall i, j | 0 <= i < j < |Sequence(spec, w)| :: Sequence(spec, w)[i] > Sequence(spec, w)[j]
    ensures w >= spec.limit <==> |Sequence(spec, w)| > 0 && Sequence(spec, w)[0] == w
    decreases w
  {
    if w < spec.limit {
    } else {
      StepDown(spec, w);
      if TurnOf(spec, w).Next? { SequenceGoesDown(spec, TurnOf(spec, w).width); }
    }
  }

  /** Every width between the limit and the original is covered: some generated width is at
      least as large, and the next one, if any, is smaller. */
  lemma {:induction false} Coverage(spec: SizeSpec, w: nat, target: nat) returns (s: nat)
    requires Steps(spec, w) && spec.limit <= target <= w
    ensures s in Sequence(spec, w) && s >= target && s - Decrement(spec, s) < target
    decreases w
  {
    StepDown(spec, w);
    if TurnOf(spec, w).Next? && TurnOf(spec, w).width >= target {
      s := Coverage(spec, TurnOf(spec, w).width, target);
    } else {
      s := w;
    }
  }

  /** The sequence is the loop's: its `k`-th element is the width after `k` turns. */
  lemma {:induction false} SequenceIsLoop(spec: SizeSpec, original: nat, k: nat)
    requires Steps(spec, original)
    ensures WidthAfter(spec, original, k)
         == if k < |Sequence(spec, original)| then Next(Sequence(spec, original)[k]) else Leave
  {
    SequenceStep(spec, original, k);
    if k == 0 {
    } else {
      SequenceIsLoop(spec, original, k - 1);
    }
  }

  lemma {:induction false} SequenceStep(spec: SizeSpec, w: nat, k: nat)
    requires Steps(spec, w)
    ensures var s := Sequence(spec, w);
      && (k == 0 ==> (|s| > 0 <==> w >= spec.limit) && (|s| > 0 ==> s[0] == w))
      && (0 < k <= |s| ==>
           match TurnOf(spec, s[k - 1])
           case Leave => k == |s|
           case Next(w') => if w' >= spec.limit then k < |s| && s[k] == w' else k == |s|)
    decreases w
  {
    if w >= spec.limit {
      StepDown(spec, w);
      match TurnOf(spec, w)
      case Leave =>
      case Next(w') =>
        SequenceStep(spec, w', if k > 0 then k - 1 else 0);
        SequenceStep(spec, w', 0);
    }
  }

  // ---------------------------------------------------------------- closed forms

  /** With a step in pixels the widths are those that a whole number of steps leads to. */
  lemma {:induction false} PixelsClosedForm(spec: SizeSpec, w: nat, x: nat)
    requires Steps(spec, w) && !spec.isPercent
    ensures x in Sequence(spec, w) <==> spec.limit <= x <= w && (w - x) % spec.decrement == 0
    decreases w
  {
    var d := spec.decrement;
    if w < spec.limit {
    } else if d > w {
      if x < w { SmallRest(w - x, d); }
    } else {
      PixelsClosedForm(spec, w - d, x);
      if x <= w - d {
        assert (w - x) % d == (w - d - x) % d by { OneLess(w - x, d); }
      } else if x < w {
        SmallRest(w - x, d);
      }
    }
  }

  lemma SmallRest(x: nat, d: nat)
    requires 0 < x < d
    ensures x % d != 0
  {
  }

  lemma OneLess(x: nat, d: nat)
    requires 0 < d <= x
    ensures x % d == (x - d) % d
  {
    var q, r := (x - d) / d, (x - d) % d;
    assert x == d * (q + 1) + r;
    RestIs(x, d, q + 1, r);
  }

  lemma RestIs(x: nat, d: nat, q: nat, r: nat)
    requires 0 <= r < d && x == d * q + r
    ensures x % d == r
  {
    assert x == d * (x / d) + x % d;
    if x / d >= q + 1 { MulMonoInt(q + 1, x / d, d); }
    if x / d <= q - 1 { MulMonoInt(x / d, q - 1, d); }
  }

  function Pow(b: nat, e: nat): nat {
    if e == 0 then 1 else b * Pow(b, e - 1)
  }

  /** The `k`-th and the next width of a sequence are one percentage step apart. */
  lemma PercentTurn(spec: SizeSpec, original: nat, k: nat)
    requires Steps(spec, original) && spec.isPercent && 0 < k < |Sequence(spec, original)|
    ensures var s, e := Sequence(spec, original), 100 - spec.decrement;
      s[k - 1] * e - 99 <= 100 * s[k] <= s[k - 1] * e
  {
    SequenceGoesDown(spec, original);
    SequenceStep(spec, original, k);
    var s := Sequence(spec, original);
    assert s[k - 1] <= original;
    hide Sequence;
    PercentStep(spec, s[k - 1]);
  }

  lemma {:induction false} UpperBound(spec: SizeSpec, original: nat, k: nat)
    requires Steps(spec, original) && spec.isPercent && k < |Sequence(spec, original)|
    ensures Sequence(spec, original)[k] * Pow(100, k) <= original * Pow(100 - spec.decrement, k)
  {
    var s, d := Sequence(spec, original), spec.decrement;
    if k == 0 {
      SequenceGoesDown(spec, original);
    } else {
      UpperBound(spec, original, k - 1);
      PercentTurn(spec, original, k);
      hide Sequence;
      UpperStep(s[k - 1], s[k], original, 100 - d, Pow(100, k - 1), Pow(100 - d, k - 1));
    }
  }

  lemma {:induction false} LowerBound(spec: SizeSpec, original: nat, k: nat)
    requires Steps(spec, original) && spec.isPercent && k < |Sequence(spec, original)|
    ensures var w, d := Sequence(spec, original)[k], spec.decrement;
      d * w * Pow(100, k) >= d * original * Pow(100 - d, k) - 99 * (Pow(100, k) - Pow(100 - d, k))
  {
    var s, d := Sequence(spec, original), spec.decrement;
    if k == 0 {
      SequenceGoesDown(spec, original);
    } else {
      LowerBound(spec, original, k - 1);
      PercentTurn(spec, original, k);
      hide Sequence;
      LowerStep(s[k - 1], s[k], original, d, Pow(100, k - 1), Pow(100 - d, k - 1));
    }
  }

  /** With a step in percent the `k`-th width is within geometric bounds, which also limit the
      number of widths. */
  lemma GeometricBounds(spec: SizeSpec, original: nat, k: nat)
    requires Steps(spec, original) && spec.isPercent && k < |Sequence(spec, original)|
    ensures var w, d := Sequence(spec, original)[k], spec.decrement;
      && w * Pow(100, k) <= original * Pow(100 - d, k)
      && d * w * Pow(100, k) >= d * original * Pow(100 - d, k) - 99 * (Pow(100, k) - Pow(100 - d, k))
      && spec.limit * Pow(100, k) <= original * Pow(100 - d, k)
  {
    UpperBound(spec, original, k);
    LowerBound(spec, original, k);
    SequenceGoesDown(spec, original);
    MulMono(spec.limit, Sequence(spec, original)[k], Pow(100, k));
    hide Sequence, Pow;
  }

  lemma UpperStep(w: nat, w': nat, o: nat, e: nat, p: nat, q: nat)
    requires 100 * w' <= w * e && w * p <= o * q
    ensures w' * (100 * p) <= o * (e * q)
  {
    calc {
      w' * (100 * p);
    ==
      (100 * w') * p;
    <= { MulMono(100 * w', w * e, p); }
      (w * e) * p;
    == { assert (w * e) * p == (w * p) * e; }
      (w * p) * e;
    <= { MulMono(w * p, o * q, e); }
      (o * q) * e;
    ==
      o * (e * q);
    }
  }

  lemma LowerStep(w: nat, w': nat, o: nat, d: nat, p: nat, q: nat)
    requires d < 100 && 100 * w' >= w * (100 - d) - 99
    requires d * w * p >= d * o * q - 99 * (p - q)
    ensures d * w' * (100 * p) >= d * o * ((100 - d) * q) - 99 * (100 * p - (100 - d) * q)
  {
    var e, x := 100 - d, d * w * p;
    var a: int := d * o * q;
    calc {
      d * w' * (100 * p);
    == { Regroup(d, w, w', e, p); }
      (100 * w') * (d * p);
    >= { MulMonoInt(w * e - 99, 100 * w', d * p); }
      (w * e - 99) * (d * p);
    == { Regroup(d, w, w', e, p); }
      x * e - 99 * (d * p);
    >= { MulMonoInt(a - 99 * (p - q), x, e); }
      (a - 99 * (p - q)) * e - 99 * (d * p);
    == { LowerAlgebra(a, p, q, d, e); }
      a * e - 99 * (100 * p - e * q);
    == { Regroup3(d * o, q, e); }
      d * o * (e * q) - 99 * (100 * p - e * q);
    }
  }

  lemma Regroup(d: nat, w: nat, w': nat, e: nat, p: nat)
    ensures d * w' * (100 * p) == (100 * w') * (d * p)
    ensures (w * e - 99) * (d * p) == (d * w * p) * e - 99 * (d * p)
  {
    assert (w * e) * (d * p) == (d * w * p) * e;
  }

  lemma Regroup3(a: nat, q: nat, e: nat)
    ensures (a * q) * e == a * (e * q)
  {
  }

  lemma LowerAlgebra(a: int, p: nat, q: nat, d: nat, e: nat)
    requires d < 100 && e == 100 - d
    ensures (a - 99 * (p - q)) * e - 99 * (d * p) == a * e - 99 * (100 * p - e * q)
  {
    assert p * e == 100 * p - d * p;
    assert (a - 99 * (p - q)) * e == a * e - 99 * (p * e) + 99 * (q * e);
  }

  lemma MulMono(a: nat, b: nat, c: nat)
    requires a <= b
    ensures a * c <= b * c
  {
  }

  lemma MulMonoInt(a: int, b: int, c: nat)
    requires a <= b
    ensures a * c <= b * c
  {
  }

  // ---------------------------------------------------------------- lists of specifications

  predicate AllStep(specs: seq<SizeSpec>, original: nat) {
    forall i | 0 <= i < |specs| :: specs[i].decrement > 0 ==> Steps(specs[i], original)
  }

  /** The union of the widths of all specifications. */
  ghost function Union(specs: seq<SizeSpec>, original: nat): set<nat>
    requires AllStep(specs, original)
  {
    if specs == [] then {} else Union(specs[..|specs| - 1], original) + SizesOf(specs[|specs| - 1], original)
  }

  /** `size_specs::get_sizes`. */
  method GetAllSizes(specs: seq<SizeSpec>, original: nat) returns (result: set<nat>)
    requires AllStep(specs, original)
    ensures result == Union(specs, original)
    ensures forall w: nat :: w in result <==>
      exists i: nat :: i < |specs| && IsWidthOf(specs[i], original, w)
  {
    UnionAre(specs, original);
    hide SizesOf, IsWidthOf;
    result := {};
    var i := 0;
    while i < |specs|
      invariant 0 <= i <= |specs| && result == Union(specs[..i], original)
    {
      assert specs[..i + 1][..i] == specs[..i];
      result := GetSizes(specs[i], original, result);
      i := i + 1;
    }
    assert specs[..i] == specs;
  }

  /** A width is generated exactly if some specification asks for it. */
  lemma UnionAre(specs: seq<SizeSpec>, original: nat)
    requires AllStep(specs, original)
    ensures forall w: nat :: w in Union(specs, original) <==>
      exists i: nat :: i < |specs| && IsWidthOf(specs[i], original, w)
  {
    UnionIs(specs, original);
    hide SizesOf, Union, IsWidthOf;
    forall i: nat | i < |specs|
      ensures forall w: nat :: w in SizesOf(specs[i], original) <==> IsWidthOf(specs[i], original, w)
    {
      SizesOfAre(specs[i], original);
    }
  }

  lemma {:induction false} UnionIs(specs: seq<SizeSpec>, original: nat)
    requires AllStep(specs, original)
    ensures forall w :: w in Union(specs, original) <==> exists i :: 0 <= i < |specs| && w in SizesOf(specs[i], original)
  {
    hide SizesOf;
    if specs == [] {
    } else {
      var before := specs[..|specs| - 1];
      UnionIs(before, original);
      forall w ensures w in Union(specs, original) <==> exists i :: 0 <= i < |specs| && w in SizesOf(specs[i], original) {
        if w in Union(before, original) {
          var i :| 0 <= i < |before| && w in SizesOf(before[i], original);
          assert specs[i] == before[i];
        }
        if i :| 0 <= i < |specs| && w in SizesOf(specs[i], original) {
          assert i < |before| ==> before[i] == specs[i];
        }
      }
    }
  }

  /** The order, and the repetition, of the specifications do not matter. */
  lemma OrderDoesNotMatter(specs: seq<SizeSpec>, specs': seq<SizeSpec>, original: nat)
    requires AllStep(specs, original) && AllStep(specs', original)
    requires forall spec :: spec in specs <==> spec in specs'
    ensures Union(specs, original) == Union(specs', original)
  {
    UnionIs(specs, original);
    UnionIs(specs', original);
    hide SizesOf, Union;
    forall w ensures w in Union(specs, original) <==> w in Union(specs', original) {
      if w in Union(specs, original) {
        var i :| 0 <= i < |specs| && w in SizesOf(specs[i], original);
        assert specs[i] in specs';
        var j :| 0 <= j < |specs'| && specs'[j] == specs[i];
      }
      if w in Union(specs', original) {
        var j :| 0 <= j < |specs'| && w in SizesOf(specs'[j], original);
        assert specs'[j] in specs;
        var i :| 0 <= i < |specs| && specs[i] == specs'[j];
      }
    }
  }

  // ---------------------------------------------------------------- how many widths there are

  function Count(spec: SizeSpec, original: nat): nat
    requires spec.decrement > 0 ==> Steps(spec, original)
  {
    if spec.decrement == 0 then 1 else |Sequence(spec, original)|
  }

  /** With a step in pixels their number is known in advance. */
  lemma {:induction false} PixelCount(spec: SizeSpec, w: nat)
    requires Steps(spec, w) && !spec.isPercent
    ensures |Sequence(spec, w)| == if w < spec.limit then 0 else (w - spec.limit) / spec.decrement + 1
    decreases w
  {
    var d := spec.decrement;
    if w < spec.limit {
    } else if d > w {
      SmallQuotient(w - spec.limit, d);
    } else {
      PixelCount(spec, w - d);
      if w - d >= spec.limit {
        QuotientDown(w - spec.limit, d);
      } else {
        SmallQuotient(w - spec.limit, d);
      }
    }
  }

  lemma SmallQuotient(x: nat, d: nat)
    requires x < d
    ensures x / d == 0
  {
  }

  lemma QuotientDown(x: nat, d: nat)
    requires 0 < d <= x
    ensures x / d == (x - d) / d + 1
  {
    OneLess(x, d);
    assert x == d * (x / d) + x % d && x - d == d * ((x - d) / d) + (x - d) % d;
    SameProduct(d, x / d, (x - d) / d + 1);
  }

  lemma SameProduct(d: nat, a: int, b: int)
    requires d > 0 && d * a == d * b
    ensures a == b
  {
    if a < b { MulMonoInt(a + 1, b, d); }
    if b < a { MulMonoInt(b + 1, a, d); }
  }

  function CountAll(specs: seq<SizeSpec>, original: nat): nat
    requires AllStep(specs, original)
  {
    if specs == [] then 0 else CountAll(specs[..|specs| - 1], original) + Count(specs[|specs| - 1], original)
  }

  lemma {:induction false} ElementsSize(s: seq<nat>)
    ensures |Elements(s)| <= |s|
  {
    if s == [] {
    } else {
      var before := s[..|s| - 1];
      ElementsSize(before);
      assert s == before + [s[|s| - 1]];
      assert Elements(s) == Elements(before) + {s[|s| - 1]};
    }
  }

  /** The union has at most as many widths as its parts together. */
  lemma {:induction false} UnionSize(specs: seq<SizeSpec>, original: nat)
    requires AllStep(specs, original)
    ensures |Union(specs, original)| <= CountAll(specs, original)
  {
    if specs == [] {
    } else {
      UnionSize(specs[..|specs| - 1], original);
      var spec := specs[|specs| - 1];
      if spec.decrement > 0 { ElementsSize(Sequence(spec, original)); }
      var a, b := Union(specs[..|specs| - 1], original), SizesOf(spec, original);
      assert |b| <= Count(spec, original);
      hide Union, SizesOf, Count;
      assert |a + b| == |a| + |b| - |a * b|;
    }
  }
}
