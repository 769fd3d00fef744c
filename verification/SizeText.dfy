/** The text form of size specifications: `size_spec::parse`, `size_specs::parse` and the
    splitting loop of src/config.hpp. */
module SizeText {
  import opened Sizes
  import Text

  // ---------------------------------------------------------------- splitting at commas

  predicate CommaFree(s: string) {
    ',' !in s
  }

  ghost predicate AllCommaFree(pieces: seq<string>) {
    forall i | 0 <= i < |pieces| :: CommaFree(pieces[i])
  }

  function Join(pieces: seq<string>): string {
    if pieces == [] then ""
    else if |pieces| == 1 then pieces[0]
    else pieces[0] + "," + Join(pieces[1..])
  }

  /** What the loop collects from `start` on. */
  function SplitFrom(s: string, start: nat): seq<string>
    decreases |s| - start
  {
    if start >= |s| then [] else
    match Text.FindFrom(s, ',', start)
    case None => [s[start..]]
    case Some(end) => [s[start..end]] + SplitFrom(s, end + 1)
  }

  /** Where the piece that begins at `start` ends. */
  function EndFrom(s: string, start: nat): (end: nat)
    requires start < |s|
    ensures start <= end <= |s|
  {
    match Text.FindFrom(s, ',', start)
    case None => |s|
    case Some(end) => end
  }

  lemma SplitStep(s: string, start: nat)
    requires start < |s|
    ensures SplitFrom(s, start) == [s[start..EndFrom(s, start)]] + SplitFrom(s, EndFrom(s, start) + 1)
  {
    assert s[start..] == s[start..|s|];
  }

  function Split(s: string): seq<string> {
    SplitFrom(s, 0)
  }

  /** The pieces have no comma and their join is the text, up to one trailing comma. */
  ghost predicate IsSplit(s: string, pieces: seq<string>) {
    && AllCommaFree(pieces)
    && if s == "" then pieces == []
       else pieces != [] && ((s == Join(pieces) && pieces[|pieces| - 1] != "") || s == Join(pieces) + ",")
  }

  lemma {:induction false} SplitFromIsSplit(s: string, start: nat)
    requires start <= |s|
    ensures IsSplit(s[start..], SplitFrom(s, start))
    decreases |s| - start
  {
    if start == |s| {
    } else {
      match Text.FindFrom(s, ',', start)
      case None =>
      case Some(end) =>
        SplitFromIsSplit(s, end + 1);
        assert s[start..] == s[start..end] + "," + s[end + 1..];
        var rest := SplitFrom(s, end + 1);
        var pieces := [s[start..end]] + rest;
        assert pieces[1..] == rest;
        if rest != [] {
          assert Join(pieces) == s[start..end] + "," + Join(rest);
          assert pieces[|pieces| - 1] == rest[|rest| - 1];
        }
    }
  }

  lemma SplitIsSplit(s: string)
    ensures IsSplit(s, Split(s))
  {
    SplitFromIsSplit(s, 0);
    assert s[0..] == s;
  }

  /** The first comma ends the first piece. */
  lemma FirstPiece(a: string, x: string, b: string, y: string)
    requires CommaFree(a) && CommaFree(b) && a + "," + x == b + "," + y
    ensures a == b && x == y
  {
    var s := a + "," + x;
    Text.FindIs(a, ',', x);
    Text.FindIs(b, ',', y);
    assert a == s[..|a|] && b == s[..|b|] && x == s[|a| + 1..] && y == s[|b| + 1..];
  }

  /** Only one list of pieces fits a text. */
  lemma {:induction false} SplitIsUnique(s: string, a: seq<string>, b: seq<string>)
    requires IsSplit(s, a) && IsSplit(s, b)
    ensures a == b
    decreases |a| + |b|
  {
    if s != "" {
      CommaEnds(s, a);
      CommaEnds(s, b);
      TerminatedIsUnique(a, b);
    }
  }

  /** Every piece followed by a comma. */
  function JoinAll(pieces: seq<string>): string {
    if pieces == [] then "" else pieces[0] + "," + JoinAll(pieces[1..])
  }

  lemma {:induction false} JoinAllIs(pieces: seq<string>)
    requires pieces != []
    ensures JoinAll(pieces) == Join(pieces) + ","
  {
    if |pieces| > 1 {
      JoinAllIs(pieces[1..]);
    } else {
      assert JoinAll(pieces[1..]) == "";
    }
  }

  lemma {:induction false} LastOfJoin(pieces: seq<string>)
    requires pieces != [] && AllCommaFree(pieces)
    ensures pieces[|pieces| - 1] != "" ==> Join(pieces) != "" && Join(pieces)[|Join(pieces)| - 1] != ','
  {
    if |pieces| > 1 {
      LastOfJoin(pieces[1..]);
    } else {
      assert CommaFree(pieces[0]);
    }
  }

  lemma CommaEnds(s: string, pieces: seq<string>)
    requires IsSplit(s, pieces) && s != ""
    ensures JoinAll(pieces) == if s[|s| - 1] == ',' then s else s + ","
  {
    JoinAllIs(pieces);
    LastOfJoin(pieces);
  }

  lemma {:induction false} TerminatedIsUnique(a: seq<string>, b: seq<string>)
    requires AllCommaFree(a) && AllCommaFree(b) && JoinAll(a) == JoinAll(b)
    ensures a == b
  {
    if a == [] || b == [] {
    } else {
      FirstPiece(a[0], JoinAll(a[1..]), b[0], JoinAll(b[1..]));
      TerminatedIsUnique(a[1..], b[1..]);
      assert a == [a[0]] + a[1..] && b == [b[0]] + b[1..];
    }
  }

  /** The loop that `config::parse` uses for a list of formats. */
  method SplitLoop(value: string) returns (pieces: seq<string>)
    ensures pieces == Split(value) && IsSplit(value, pieces)
  {
    pieces := [];
    var start := 0;
    while start < |value|
      invariant 0 <= start <= |value| + 1
      invariant Split(value) == pieces + SplitFrom(value, start)
      decreases |value| + 1 - start
    {
      var end := EndFrom(value, start);
      SplitStep(value, start);
      pieces := pieces + [value[start..end]];
      start := end + 1;
    }
    SplitIsSplit(value);
  }

  // ---------------------------------------------------------------- one specification

  /** `Undefined` where the source takes the last character of an empty string. */
  datatype Outcome<+V> = Fine(value: V) | Throws | Undefined

  function Unsigned(x: int): nat
    requires x >= Text.INT_MIN
  {
    if x < 0 then x + TWO_64 else x
  }

  function ParseNumber(s: string): Outcome<nat> {
    match Text.ParseInt(s)
    case Number(v) => Fine(Unsigned(v))
    case NotANumber(_) => Throws
  }

  /** The digits of a decrement, and whether it is a percentage. Of a decrement in pixels the
      source checks only that the last character is `x`, or `q` because of how it compares. */
  function DecrementText(s: string): Outcome<(string, bool)> {
    if s == "" then Undefined else
    var last := s[|s| - 1];
    if last == '%' then Fine((s[..|s| - 1], true))
    else if last != 'x' && last != 'q' then Throws
    else Fine((if |s| >= 2 then s[..|s| - 2] else s, false))
  }

  function ParseDecrement(limit: nat, s: string): Outcome<SizeSpec> {
    match DecrementText(s)
    case Throws => Throws
    case Undefined => Undefined
    case Fine((digits, isPercent)) =>
      match ParseNumber(digits)
      case Throws => Throws
      case Undefined => Undefined
      case Fine(d) => if (isPercent && d >= 100) || d == 0 then Throws else Fine(SizeSpec(limit, d, isPercent))
  }

  function ParseSpec(s: string): Outcome<SizeSpec> {
    match Text.Find(s, ':')
    case None =>
      (match ParseNumber(s)
       case Throws => Throws
       case Undefined => Undefined
       case Fine(v) => Fine(SizeSpec(v, 0, false)))
    case Some(colon) =>
      match ParseNumber(s[..colon])
      case Throws => Throws
      case Undefined => Undefined
      case Fine(limit) => ParseDecrement(limit, s[colon + 1..])
  }

  lemma AcceptedPercentage(s: string)
    requires ParseSpec(s).Fine?
    ensures var spec := ParseSpec(s).value; spec.isPercent ==> 0 < spec.decrement < 100
  {
  }

  /** With which accepted texts the computation of the widths ends: all but the percentages with
      limit 0. (A specification without a decrement has no loop.) */
  lemma AcceptedTerminationIsExact(s: string, original: nat)
    requires ParseSpec(s).Fine? && original <= MAX_WIDTH
    ensures var spec := ParseSpec(s).value;
      spec.decrement == 0 || Terminates(spec, original) <==> !(spec.isPercent && spec.limit == 0)
  {
    AcceptedPercentage(s);
    hide ParseSpec;
    var spec := ParseSpec(s).value;
    if spec.decrement > 0 { TerminationIsExact(spec, original); }
  }

  /** And the parser does accept those. */
  lemma EndlessIsAccepted(d: nat, original: nat)
    requires 0 < d < 100 && original <= MAX_WIDTH
    ensures ParseSpec("0:" + Text.Print(d) + "%") == Fine(SizeSpec(0, d, true)) && !Terminates(SizeSpec(0, d, true), original)
  {
    var s := "0:" + Text.Print(d) + "%";
    Text.FindIs("0", ':', Text.Print(d) + "%");
    assert s == "0" + ":" + (Text.Print(d) + "%");
    assert s[..1] == "0" == Text.Print(0) && s[2..] == Text.Print(d) + "%";
    PrintedNumber(0);
    SuffixIsExact(0, Text.Print(d), "%");
    TerminationIsExact(SizeSpec(0, d, true), original);
  }

  function ParsePieces(pieces: seq<string>): Outcome<seq<SizeSpec>> {
    if pieces == [] then Fine([]) else
    match ParsePieces(pieces[..|pieces| - 1])
    case Throws => Throws
    case Undefined => Undefined
    case Fine(before) =>
      match ParseSpec(pieces[|pieces| - 1])
      case Throws => Throws
      case Undefined => Undefined
      case Fine(spec) => Fine(before + [spec])
  }

  lemma {:induction false} PiecesStop(pieces: seq<string>, n: nat)
    requires n <= |pieces| && !ParsePieces(pieces[..n]).Fine?
    ensures ParsePieces(pieces) == ParsePieces(pieces[..n])
    decreases |pieces|
  {
    if n == |pieces| {
      assert pieces[..n] == pieces;
    } else {
      assert pieces[..|pieces| - 1][..n] == pieces[..n];
      PiecesStop(pieces[..|pieces| - 1], n);
    }
  }

  lemma ParseOneMore(pieces: seq<string>, piece: string)
    requires ParsePieces(pieces).Fine?
    ensures ParsePieces(pieces + [piece]) ==
      match ParseSpec(piece)
      case Throws => Throws
      case Undefined => Undefined
      case Fine(spec) => Fine(ParsePieces(pieces).value + [spec])
  {
    assert (pieces + [piece])[..|pieces|] == pieces;
    hide ParseSpec;
  }

  lemma PrefixStops(all: seq<string>, pieces: seq<string>, rest: seq<string>)
    requires all == pieces + rest && !ParsePieces(pieces).Fine?
    ensures ParsePieces(all) == ParsePieces(pieces)
  {
    assert all[..|pieces|] == pieces;
    PiecesStop(all, |pieces|);
  }

  /** `size_specs::parse`. */
  method ParseSpecs(s: string) returns (r: Outcome<seq<SizeSpec>>)
    ensures r == ParsePieces(Split(s))
  {
    hide ParseSpec, SplitFrom, ParsePieces;
    var specs: seq<SizeSpec> := [];
    ghost var pieces: seq<string> := [];
    assert ParsePieces([]) == Fine([]) by { NoPieces(); }
    var start := 0;
    while start < |s|
      invariant 0 <= start <= |s| + 1
      invariant Split(s) == pieces + SplitFrom(s, start)
      invariant ParsePieces(pieces) == Fine(specs)
      decreases |s| + 1 - start
    {
      var end := EndFrom(s, start);
      SplitStep(s, start);
      var spec := ParseSpec(s[start..end]);
      ParseOneMore(pieces, s[start..end]);
      pieces := pieces + [s[start..end]];
      match spec {
        case Throws =>
          PrefixStops(Split(s), pieces, SplitFrom(s, end + 1));
          return Throws;
        case Undefined =>
          PrefixStops(Split(s), pieces, SplitFrom(s, end + 1));
          return Undefined;
        case Fine(value) => specs := specs + [value];
      }
      start := end + 1;
    }
    NothingLeft(s, start);
    assert pieces + [] == pieces;
    r := Fine(specs);
  }

  lemma NoPieces()
    ensures ParsePieces([]) == Fine([])
  {
  }

  lemma NothingLeft(s: string, start: nat)
    requires start >= |s|
    ensures SplitFrom(s, start) == []
  {
  }

  // ---------------------------------------------------------------- printing

  function PrintSpec(spec: SizeSpec): string {
    if spec.decrement == 0 then Text.Print(spec.limit)
    else Text.Print(spec.limit) + ":" + Text.Print(spec.decrement) + if spec.isPercent then "%" else "px"
  }

  function PrintPieces(specs: seq<SizeSpec>): seq<string> {
    seq(|specs|, i requires 0 <= i < |specs| => PrintSpec(specs[i]))
  }

  lemma PrintHas(n: nat, c: char)
    requires !Text.IsDigit(c)
    ensures c !in Text.Print(n)
  {
    assert Text.AllDigits(Text.Print(n));
  }

  lemma PrintedNumber(n: nat)
    requires n <= Text.INT_MAX
    ensures ParseNumber(Text.Print(n)) == Fine(n)
  {
    assert Text.Print(n) + "" == Text.Print(n);
    Text.PrintedNumberComesBack(n, "");
  }

  /** A documented specification is parsed back from its text. */
  lemma PrintedSpecComesBack(spec: SizeSpec)
    requires IsDocumented(spec) && (spec.decrement == 0 ==> !spec.isPercent)
    ensures ParseSpec(PrintSpec(spec)) == Fine(spec)
  {
    hide ParseNumber, ParseDecrement, Text.AllDigits;
    PrintHas(spec.limit, ':');
    PrintedNumber(spec.limit);
    if spec.decrement > 0 {
      PrintedDecrement(spec);
      var unit := if spec.isPercent then "%" else "px";
      Text.FindIs(Text.Print(spec.limit), ':', Text.Print(spec.decrement) + unit);
      var s := PrintSpec(spec);
      assert s == Text.Print(spec.limit) + ":" + (Text.Print(spec.decrement) + unit);
      assert s[..|Text.Print(spec.limit)|] == Text.Print(spec.limit);
      assert s[|Text.Print(spec.limit)| + 1..] == Text.Print(spec.decrement) + unit;
    }
  }

  lemma PrintedDecrement(spec: SizeSpec)
    requires IsDocumented(spec) && spec.decrement > 0
    ensures ParseDecrement(spec.limit, Text.Print(spec.decrement) + if spec.isPercent then "%" else "px") == Fine(spec)
  {
    hide ParseDecrement;
    SuffixIsExact(spec.limit, Text.Print(spec.decrement), if spec.isPercent then "%" else "px");
  }

  /** The number that a text of digits is read as, when followed by anything but a digit. */
  lemma DigitsAreRead(digits: string, rest: string)
    requires Text.AllDigits(digits) && (digits == "" ==> rest == "") && (rest != "" ==> !Text.IsDigit(rest[0]))
    ensures var n := Text.Value(digits);
      && (digits == "" ==> n == 0)
      && ParseNumber(digits + rest) == if digits != "" && n <= Text.INT_MAX then Fine(n) else Throws
  {
    if digits == "" {
      assert digits + rest == "";
      Text.NoDigitIsInvalid("");
    } else {
      Text.DigitsAreRead(digits, rest);
    }
    hide Text.ParseInt;
  }

  lemma NegativeDigitsAreRead(digits: string, rest: string)
    requires Text.AllDigits(digits) && (rest != "" ==> !Text.IsDigit(rest[0]))
    ensures var n: int := Text.Value(digits);
      && (digits == "" ==> n == 0)
      && ParseNumber("-" + digits + rest) == if digits != "" && n <= Text.INT_MAX + 1 then Fine(Unsigned(-n)) else Throws
  {
    if digits == "" {
      assert "-" + digits + rest == "-" + rest;
      Text.NoDigitIsInvalid(rest);
    } else {
      Text.NegativeDigitsAreRead(digits, rest);
    }
    hide Text.ParseInt;
  }

  predicate EndsIn(s: string, c: char) {
    s != "" && s[|s| - 1] == c
  }

  /** The digits that count in front of a pixel suffix: `substr(0, size() - 2)` takes the last of
      them away if the suffix is a single character. */
  function DigitsLeft(digits: string, suffix: string): (left: string)
    requires digits != ""
    ensures Text.AllDigits(digits) ==> Text.AllDigits(left)
  {
    if |suffix| == 1 then digits[..|digits| - 1] else digits
  }

  /** What `string_view_to_int` then ignores. */
  function Ignored(suffix: string): string {
    if |suffix| <= 1 then "" else suffix[..|suffix| - 2]
  }

  lemma IgnoredStart(digits: string, suffix: string)
    requires digits != "" && (suffix != "" ==> !Text.IsDigit(suffix[0]))
    ensures Ignored(suffix) != "" ==> !Text.IsDigit(Ignored(suffix)[0])
    ensures DigitsLeft(digits, suffix) == "" ==> Ignored(suffix) == ""
  {
  }

  lemma PixelText(sign: string, digits: string, suffix: string)
    requires |sign| <= 1 && digits != "" && (EndsIn(suffix, 'x') || EndsIn(suffix, 'q'))
    ensures DecrementText(sign + digits + suffix) == Fine((sign + DigitsLeft(digits, suffix) + Ignored(suffix), false))
  {
    var s := sign + digits + suffix;
    assert s[..|s| - 2] == sign + DigitsLeft(digits, suffix) + Ignored(suffix);
  }

  lemma PercentText(digits: string, suffix: string)
    requires EndsIn(suffix, '%')
    ensures DecrementText(digits + suffix) == Fine((digits + suffix[..|suffix| - 1], true))
  {
    var s := digits + suffix;
    assert s[..|s| - 1] == digits + suffix[..|suffix| - 1];
  }

  lemma OtherText(sign: string, digits: string, suffix: string)
    requires digits != "" && Text.AllDigits(digits) && !EndsIn(suffix, '%') && !EndsIn(suffix, 'x') && !EndsIn(suffix, 'q')
    ensures DecrementText(sign + digits + suffix) == Throws
  {
    var s := sign + digits + suffix;
    if suffix == "" {
      assert s[|s| - 1] == digits[|digits| - 1] && Text.IsDigit(digits[|digits| - 1]);
    } else {
      assert s[|s| - 1] == suffix[|suffix| - 1];
    }
  }

  /** Which decrements are accepted, and as what, for all texts that begin with a digit: whatever
      ends in a percent sign, or in `x` or `q`, with anything in between. */
  lemma SuffixIsExact(limit: nat, digits: string, suffix: string)
    requires digits != "" && Text.AllDigits(digits) && (suffix != "" ==> !Text.IsDigit(suffix[0]))
    ensures var n, left := Text.Value(digits), Text.Value(DigitsLeft(digits, suffix));
      ParseDecrement(limit, digits + suffix) ==
        if EndsIn(suffix, '%') then (if 0 < n < 100 then Fine(SizeSpec(limit, n, true)) else Throws)
        else if EndsIn(suffix, 'x') || EndsIn(suffix, 'q')
        then (if 0 < left <= Text.INT_MAX then Fine(SizeSpec(limit, left, false)) else Throws)
        else Throws
  {
    hide ParseNumber, Text.Value, Text.AllDigits, DecrementText, DigitsLeft, Ignored;
    assert "" + digits + suffix == digits + suffix;
    if EndsIn(suffix, '%') {
      PercentText(digits, suffix);
      DigitsAreRead(digits, suffix[..|suffix| - 1]);
    } else if EndsIn(suffix, 'x') || EndsIn(suffix, 'q') {
      var left := DigitsLeft(digits, suffix);
      IgnoredStart(digits, suffix);
      PixelText("", digits, suffix);
      assert "" + left + Ignored(suffix) == left + Ignored(suffix);
      DigitsAreRead(left, Ignored(suffix));
    } else {
      OtherText("", digits, suffix);
    }
  }

  /** And for all that begin with a minus sign: never as a percentage, and as the huge number that
      the negative one becomes in an unsigned type. */
  lemma NegativeIsExact(limit: nat, digits: string, suffix: string)
    requires digits != "" && Text.AllDigits(digits) && (suffix != "" ==> !Text.IsDigit(suffix[0]))
    ensures var left := Text.Value(DigitsLeft(digits, suffix));
      ParseDecrement(limit, "-" + digits + suffix) ==
        if (EndsIn(suffix, 'x') || EndsIn(suffix, 'q')) && 0 < left <= Text.INT_MAX + 1
        then Fine(SizeSpec(limit, TWO_64 - left, false)) else Throws
  {
    hide ParseNumber, Text.Value, Text.AllDigits, DecrementText, DigitsLeft, Ignored;
    if EndsIn(suffix, '%') {
      assert "-" + digits + suffix == ("-" + digits) + suffix;
      PercentText("-" + digits, suffix);
      NegativeDigitsAreRead(digits, suffix[..|suffix| - 1]);
    } else if EndsIn(suffix, 'x') || EndsIn(suffix, 'q') {
      IgnoredStart(digits, suffix);
      PixelText("-", digits, suffix);
      NegativeDigitsAreRead(DigitsLeft(digits, suffix), Ignored(suffix));
    } else {
      OtherText("-", digits, suffix);
    }
  }

  /** No other text is accepted. */
  lemma OthersAreRefused(limit: nat, s: string)
    requires s == "" || !Text.IsDigit(s[0])
    requires |s| > 1 && s[0] == '-' ==> !Text.IsDigit(s[1])
    ensures !ParseDecrement(limit, s).Fine?
  {
    var t := DecrementText(s);
    if t.Fine? {
      var u := t.value.0;
      assert u == s[..|u|];
      if u != "" && u[0] == '-' { assert u == "-" + u[1..]; Text.NoDigitIsInvalid(u[1..]); }
      else { Text.NoDigitIsInvalid(u); }
    }
  }

  /** How a specification is taken apart: without a colon it is a fixed size; otherwise the limit is
      before the first colon, the decrement behind it, and both must be readable. */
  lemma SpecIs(limit: string, decrement: string)
    requires ':' !in limit
    ensures ParseSpec(limit) == match ParseNumber(limit)
                                case Fine(n) => Fine(SizeSpec(n, 0, false))
                                case _ => Throws
    ensures ParseSpec(limit + ":" + decrement) == match ParseNumber(limit)
                                                  case Fine(n) => ParseDecrement(n, decrement)
                                                  case _ => Throws
  {
    hide ParseDecrement, Text.ParseInt;
    Text.FindIs(limit, ':', decrement);
    var s := limit + ":" + decrement;
    assert s[..|limit|] == limit && s[|limit| + 1..] == decrement;
  }

  /** A list of pieces is parsed exactly if every piece is, and otherwise fails as its first bad
      piece does. */
  lemma {:induction false} PiecesAreExact(pieces: seq<string>)
    ensures ParsePieces(pieces).Fine? <==> forall i | 0 <= i < |pieces| :: ParseSpec(pieces[i]).Fine?
    ensures ParsePieces(pieces).Fine? ==>
      |ParsePieces(pieces).value| == |pieces|
      && forall i | 0 <= i < |pieces| :: ParseSpec(pieces[i]) == Fine(ParsePieces(pieces).value[i])
    ensures forall i | 0 <= i < |pieces| && !ParseSpec(pieces[i]).Fine? && (forall j | 0 <= j < i :: ParseSpec(pieces[j]).Fine?) ::
      (ParsePieces(pieces).Throws? <==> ParseSpec(pieces[i]).Throws?)
  {
    hide ParseSpec;
    if pieces != [] {
      var before := pieces[..|pieces| - 1];
      PiecesAreExact(before);
      assert forall i | 0 <= i < |before| :: before[i] == pieces[i];
    }
  }

  ghost predicate AllDocumented(specs: seq<SizeSpec>) {
    forall i | 0 <= i < |specs| :: IsDocumented(specs[i]) && (specs[i].decrement == 0 ==> !specs[i].isPercent)
  }

  lemma PrintOneMore(specs: seq<SizeSpec>, spec: SizeSpec)
    ensures PrintPieces(specs + [spec]) == PrintPieces(specs) + [PrintSpec(spec)]
  {
    hide PrintSpec;
  }

  lemma {:induction false} PrintedPiecesComeBack(specs: seq<SizeSpec>)
    requires AllDocumented(specs)
    ensures ParsePieces(PrintPieces(specs)) == Fine(specs)
  {
    if specs == [] {
    } else {
      var before, last := specs[..|specs| - 1], specs[|specs| - 1];
      assert specs == before + [last];
      PrintedPiecesComeBack(before);
      PrintedSpecComesBack(last);
      PrintOneMore(before, last);
      hide *;
      ParseOneMore(PrintPieces(before), PrintSpec(last));
    }
  }

  lemma PrintedHasNoComma(spec: SizeSpec)
    ensures CommaFree(PrintSpec(spec)) && PrintSpec(spec) != ""
  {
    PrintHas(spec.limit, ',');
    PrintHas(spec.decrement, ',');
  }

  /** Printing a list of documented specifications and parsing it gives the list back. */
  lemma SizeListRoundTrip(specs: seq<SizeSpec>)
    requires AllDocumented(specs)
    ensures ParsePieces(Split(Join(PrintPieces(specs)))) == Fine(specs)
  {
    var pieces := PrintPieces(specs);
    forall i | 0 <= i < |pieces| ensures CommaFree(pieces[i]) && pieces[i] != "" {
      PrintedHasNoComma(specs[i]);
    }
    var s := Join(pieces);
    if pieces != [] { LastOfJoin(pieces); }
    SplitIsSplit(s);
    SplitIsUnique(s, Split(s), pieces);
    PrintedPiecesComeBack(specs);
  }
}
