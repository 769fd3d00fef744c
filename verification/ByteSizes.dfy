/** `parse_bytes` of src/config.hpp: a number of bytes with a unit, in 32-bit unsigned arithmetic. */
module ByteSizes {
  import Text
  import ConfigFold
  import ConfigKeys

  const TWO_32 := 0x1_0000_0000

  function Unit(c: char): ConfigFold.Option<nat> {
    if c == 'B' then ConfigFold.Some(1)
    else if c == 'k' || c == 'K' then ConfigFold.Some(1024)
    else if c == 'M' then ConfigFold.Some(1024 * 1024)
    else if c == 'G' then ConfigFold.Some(1024 * 1024 * 1024)
    else ConfigFold.None
  }

  /** Digits, and a unit as the last character; none where the source throws. */
  function ParseBytes(s: string): ConfigFold.Option<nat> {
    if s == "" || !Text.AllDigits(s[..|s| - 1]) then ConfigFold.None else
    match Unit(s[|s| - 1])
    case None => ConfigFold.None
    case Some(unit) => ConfigFold.Some(Text.Value(s[..|s| - 1]) * unit % TWO_32)
  }

  /** Wrapping around before the multiplication changes nothing. */
  lemma WrapFirst(a: nat, b: nat, d: nat)
    ensures ((a % TWO_32) * b + d) % TWO_32 == (a * b + d) % TWO_32
  {
    var q, r := a / TWO_32, a % TWO_32;
    assert a * b == q * b * TWO_32 + r * b by {
      assert a == q * TWO_32 + r;
    }
    AddMultiple(r * b + d, q * b);
  }

  lemma {:induction false} AddMultiple(x: nat, k: nat)
    ensures (x + k * TWO_32) % TWO_32 == x % TWO_32
  {
    if k > 0 {
      AddMultiple(x, k - 1);
      assert x + k * TWO_32 == (x + (k - 1) * TWO_32) + TWO_32;
    }
  }

  lemma OneMoreDigit(s: string, i: nat)
    requires i < |s| && Text.AllDigits(s[..i]) && Text.IsDigit(s[i])
    ensures Text.AllDigits(s[..i + 1])
    ensures Text.Value(s[..i + 1]) == 10 * Text.Value(s[..i]) + (s[i] - '0') as nat
  {
    assert s[..i + 1][..i] == s[..i] && s[..i + 1][i] == s[i];
  }

  method Parse(s: string) returns (r: ConfigFold.Option<nat>)
    ensures r == ParseBytes(s)
  {
    var val, i := 0, 0;
    while i < |s|
      invariant 0 <= i <= |s| && Text.AllDigits(s[..i]) && val == Text.Value(s[..i]) % TWO_32
    {
      if !Text.IsDigit(s[i]) {
        if i != |s| - 1 {
          assert s[..|s| - 1][i] == s[i];
          return ConfigFold.None;
        }
        var unit := Unit(s[i]);
        if unit.None? { return ConfigFold.None; }
        WrapFirst(Text.Value(s[..i]), unit.value, 0);
        return ConfigFold.Some(val * unit.value % TWO_32);
      }
      OneMoreDigit(s, i);
      WrapFirst(Text.Value(s[..i]), 10, (s[i] - '0') as nat);
      val := (val * 10 + (s[i] - '0') as nat) % TWO_32;
      i := i + 1;
    }
    assert s != "" ==> Text.IsDigit(s[..i][|s| - 1]);
    r := ConfigFold.None;
  }

  /** A printed number with a unit is read as that many bytes exactly if they fit 32 bits, and
      otherwise modulo 2^32; without a unit, or with anything behind it, nothing is read. */
  lemma PrintedBytesComeBack(n: nat, unit: char, rest: string)
    ensures ParseBytes(Text.Print(n)).None?
    ensures rest != "" && !Text.IsDigit(unit) ==> ParseBytes(Text.Print(n) + [unit] + rest).None?
    ensures unit == 'B' ==> ParseBytes(Text.Print(n) + [unit]) == ConfigFold.Some(n % TWO_32)
    ensures unit == 'k' || unit == 'K' ==> ParseBytes(Text.Print(n) + [unit]) == ConfigFold.Some(1024 * n % TWO_32)
    ensures unit == 'M' ==> ParseBytes(Text.Print(n) + [unit]) == ConfigFold.Some(1048576 * n % TWO_32)
    ensures unit == 'G' ==> ParseBytes(Text.Print(n) + [unit]) == ConfigFold.Some(1073741824 * n % TWO_32)
    ensures unit !in "BkKMG" && !Text.IsDigit(unit) ==> ParseBytes(Text.Print(n) + [unit]).None?
  {
    hide ParseBytes, Unit, Text.Value;
    var digits := Text.Print(n);
    NoUnit(digits);
    WithUnit(digits, unit);
    if rest != "" && !Text.IsDigit(unit) { UnitInside(digits, unit, rest); }
    UnitsAre(unit);
  }

  lemma UnitsAre(c: char)
    ensures Unit('B') == ConfigFold.Some(1) && Unit('k') == Unit('K') == ConfigFold.Some(1024)
    ensures Unit('M') == ConfigFold.Some(1048576) && Unit('G') == ConfigFold.Some(1073741824)
    ensures c !in "BkKMG" ==> Unit(c).None?
  {
  }

  lemma NoUnit(digits: string)
    requires digits != "" && Text.AllDigits(digits)
    ensures ParseBytes(digits).None?
  {
    assert Text.IsDigit(digits[|digits| - 1]);
    hide Text.Value;
  }

  lemma WithUnit(digits: string, unit: char)
    requires Text.AllDigits(digits)
    ensures ParseBytes(digits + [unit]) ==
      if Unit(unit).None? then ConfigFold.None else ConfigFold.Some(Text.Value(digits) * Unit(unit).value % TWO_32)
  {
    hide Text.Value, Unit;
    assert (digits + [unit])[..|digits|] == digits;
  }

  lemma UnitInside(digits: string, unit: char, rest: string)
    requires rest != "" && !Text.IsDigit(unit)
    ensures ParseBytes(digits + [unit] + rest).None?
  {
    hide Text.Value, Unit;
    var s := digits + [unit] + rest;
    assert s[|digits|] == unit && s[..|s| - 1][|digits|] == unit;
  }

  /** The accepted limits are those, wherever the line stands. */
  lemma UploadLimitIs(lines: seq<string>, n: nat)
    requires ConfigFold.ParseLines(ParseBytes, lines).Fine? && 1048576 * n < TWO_32
    ensures ConfigKeys.Sets(lines, "upload_limit", Text.Print(n) + "M") ==>
      ConfigFold.ParseLines(ParseBytes, lines).value.uploadLimit == 1048576 * n
  {
    hide ConfigFold.ParseLines, ConfigKeys.Sets;
    var value := Text.Print(n) + "M";
    PrintedBytesComeBack(n, 'M', "");
    ConfigKeys.TextsAreSet(ParseBytes, lines, value);
  }
}
