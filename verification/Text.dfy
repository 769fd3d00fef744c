/** The string helpers of src/utils.hpp: names and extensions, numbers, comments, sanitizing. */
module Text {

  datatype Option<+V> = None | Some(value: V)

  datatype NumberError = InvalidArgument | OutOfRange

  datatype Parsed = Number(value: int) | NotANumber(error: NumberError)

  // ---------------------------------------------------------------- searching

  /** `find`: the first occurrence of `c` at or after `start`. */
  function FindFrom(s: string, c: char, start: nat): (r: Option<nat>)
    requires start <= |s|
    ensures r.None? ==> c !in s[start..]
    ensures r.Some? ==> start <= r.value < |s| && s[r.value] == c && c !in s[start..r.value]
    decreases |s| - start
  {
    if start == |s| then None
    else if s[start] == c then Some(start)
    else
      assert s[start..] == [s[start]] + s[start + 1..];
      var r := FindFrom(s, c, start + 1);
      assert r.Some? ==> s[start..r.value] == [s[start]] + s[start + 1..r.value];
      r
  }

  function Find(s: string, c: char): (r: Option<nat>)
    ensures r.None? ==> c !in s
    ensures r.Some? ==> r.value < |s| && s[r.value] == c && c !in s[..r.value]
  {
    assert s[0..] == s;
    var r := FindFrom(s, c, 0);
    assert r.Some? ==> s[0..r.value] == s[..r.value];
    r
  }

  /** `find_last_of`. */
  function FindLast(s: string, c: char): (r: Option<nat>)
    ensures r.None? ==> c !in s
    ensures r.Some? ==> r.value < |s| && s[r.value] == c && c !in s[r.value + 1..]
  {
    if s == "" then None
    else if s[|s| - 1] == c then Some(|s| - 1)
    else
      assert s == s[..|s| - 1] + [s[|s| - 1]];
      var r := FindLast(s[..|s| - 1], c);
      assert r.Some? ==> s[r.value + 1..] == s[..|s| - 1][r.value + 1..] + [s[|s| - 1]];
      r
  }

  lemma NotInside(s: string, i: nat, j: nat, c: char)
    requires i <= j <= |s| && c !in s[i..j]
    ensures forall k | i <= k < j :: s[k] != c
  {
    forall k | i <= k < j ensures s[k] != c {
      assert s[i..j][k - i] == s[k];
    }
  }

  /** Where `find` stops is where the text before the first `c` ends. */
  lemma FindIs(a: string, c: char, b: string)
    requires c !in a
    ensures Find(a + [c] + b, c) == Some(|a|)
  {
    var s := a + [c] + b;
    assert s[|a|] == c && c in s;
    var i := Find(s, c).value;
    assert s[..i] == s[0..i];
    NotInside(s, 0, i, c);
    assert forall k | 0 <= k < |a| :: s[k] == a[k];
  }

  lemma FindLastIs(a: string, c: char, b: string)
    requires c !in b
    ensures FindLast(a + [c] + b, c) == Some(|a|)
  {
    var s := a + [c] + b;
    assert s[|a|] == c;
    LastIs(s, c, |a|, FindLast(s, c));
  }

  lemma LastIs(s: string, c: char, n: nat, r: Option<nat>)
    requires n < |s| && s[n] == c && forall k | n < k < |s| :: s[k] != c
    requires r.None? ==> c !in s
    requires r.Some? ==> r.value < |s| && s[r.value] == c && c !in s[r.value + 1..]
    ensures r == Some(n)
  {
    if r.Some? {
      assert s[r.value + 1..] == s[r.value + 1..|s|];
      NotInside(s, r.value + 1, |s|, c);
    }
  }

  // ---------------------------------------------------------------- names and extensions

  function GetFilenameWithoutExtension(s: string): string {
    match FindLast(s, '.')
    case None => s
    case Some(i) => s[..i]
  }

  function GetExtension(s: string): string {
    match FindLast(s, '.')
    case None => ""
    case Some(i) => s[i + 1..]
  }

  predicate DotFree(s: string) {
    '.' !in s
  }

  /** What any text is taken apart into: a text without a dot is all name, and any other is its name,
      the last dot and an extension without dots. */
  lemma TakenApart(s: string)
    ensures DotFree(s) ==> GetFilenameWithoutExtension(s) == s && GetExtension(s) == ""
    ensures !DotFree(s) ==> s == GetFilenameWithoutExtension(s) + "." + GetExtension(s)
    ensures DotFree(GetExtension(s))
  {
    if FindLast(s, '.').Some? {
      var i := FindLast(s, '.').value;
      assert s == s[..i] + [s[i]] + s[i + 1..];
    }
  }

  /** Joining a name and an extension is undone by taking them apart exactly if the extension
      has no dot; the name may have any. */
  lemma JoinedNameComesApart(name: string, extension: string)
    ensures GetFilenameWithoutExtension(name + "." + extension) == name <==> DotFree(extension)
    ensures DotFree(extension) ==> GetExtension(name + "." + extension) == extension
  {
    var s := name + "." + extension;
    if DotFree(extension) {
      FindLastIs(name, '.', extension);
      assert s[..|name|] == name && s[|name| + 1..] == extension;
    } else {
      var k :| 0 <= k < |extension| && extension[k] == '.';
      assert s[|name| + 1 + k] == '.';
      var i := FindLast(s, '.').value;
      assert s[i + 1..] == s[i + 1..|s|];
      NotInside(s, i + 1, |s|, '.');
      assert |s[..i]| == i > |name|;
    }
  }

  // ---------------------------------------------------------------- numbers

  const INT_MAX := 0x7fff_ffff
  const INT_MIN := -0x8000_0000

  predicate IsDigit(c: char) {
    '0' <= c <= '9'
  }

  predicate AllDigits(s: string) {
    forall i | 0 <= i < |s| :: IsDigit(s[i])
  }

  /** The length of the longest prefix of digits. */
  function DigitCount(s: string): (k: nat)
    ensures k <= |s| && AllDigits(s[..k]) && (k < |s| ==> !IsDigit(s[k]))
  {
    if s == "" || !IsDigit(s[0]) then 0
    else
      var k := 1 + DigitCount(s[1..]);
      assert s[..k] == [s[0]] + s[1..][..k - 1];
      k
  }

  function Value(s: string): nat
    requires AllDigits(s)
  {
    if s == "" then 0 else 10 * Value(s[..|s| - 1]) + (s[|s| - 1] - '0') as nat
  }

  /** `std::from_chars` to an `int`, base 10, as `string_view_to_int` uses it: a minus sign, at
      least one digit, and whatever follows is ignored. */
  function ParseInt(s: string): Parsed {
    var negative := s != "" && s[0] == '-';
    var digits := if negative then s[1..] else s;
    var k := DigitCount(digits);
    if k == 0 then NotANumber(InvalidArgument) else
    var v: int := Value(digits[..k]) * if negative then -1 else 1;
    if INT_MIN <= v <= INT_MAX then Number(v) else NotANumber(OutOfRange)
  }

  /** `std::to_string` of an unsigned number. */
  function Print(n: nat): (s: string)
    ensures s != "" && AllDigits(s) && Value(s) == n
    decreases n
  {
    if n < 10 then [('0' as int + n) as char]
    else
      var last := ('0' as int + n % 10) as char;
      var s := Print(n / 10) + [last];
      assert s[..|s| - 1] == Print(n / 10);
      s
  }

  /** It prints in base ten, most significant digit first, with no leading zero. */
  lemma PrintIsDecimal(n: nat, digit: nat)
    requires digit < 10
    ensures Print(digit) == ["0123456789"[digit]]
    ensures n > 0 ==> Print(10 * n + digit) == Print(n) + ["0123456789"[digit]]
  {
    assert "0123456789"[digit] == ('0' as int + digit) as char;
    if n > 0 { assert (10 * n + digit) / 10 == n && (10 * n + digit) % 10 == digit; }
  }

  lemma DigitCountIs(a: string, b: string)
    requires AllDigits(a) && (b != "" ==> !IsDigit(b[0]))
    ensures DigitCount(a + b) == |a|
  {
    var k := DigitCount(a + b);
    assert forall i | 0 <= i < k :: (a + b)[i] == (a + b)[..k][i];
    assert forall i | 0 <= i < |a| :: (a + b)[i] == a[i];
    assert b != "" ==> (a + b)[|a|] == b[0];
  }

  /** Digits are read as the number they stand for, whatever non-digit follows them. */
  lemma DigitsAreRead(digits: string, rest: string)
    requires digits != "" && AllDigits(digits) && (rest != "" ==> !IsDigit(rest[0]))
    ensures ParseInt(digits + rest) == if Value(digits) <= INT_MAX then Number(Value(digits)) else NotANumber(OutOfRange)
  {
    assert IsDigit(digits[0]);
    hide DigitCount, Value, AllDigits;
    var s := digits + rest;
    DigitCountIs(digits, rest);
    assert s[0] == digits[0] && s[..|digits|] == digits;
  }

  lemma NegativeDigitsAreRead(digits: string, rest: string)
    requires digits != "" && AllDigits(digits) && (rest != "" ==> !IsDigit(rest[0]))
    ensures ParseInt("-" + digits + rest) ==
      if Value(digits) <= INT_MAX + 1 then Number(-(Value(digits) as int)) else NotANumber(OutOfRange)
  {
    hide DigitCount, Value, AllDigits;
    var s, t := "-" + digits + rest, digits + rest;
    DigitCountIs(digits, rest);
    assert s[0] == '-' && s[1..] == t && t[..|digits|] == digits;
  }

  /** Reading a printed number gives it back exactly if it fits an `int`, whatever non-digit
      follows it. */
  lemma PrintedNumberComesBack(n: nat, rest: string)
    requires rest != "" ==> !IsDigit(rest[0])
    ensures ParseInt(Print(n) + rest) == if n <= INT_MAX then Number(n) else NotANumber(OutOfRange)
  {
    hide ParseInt;
    DigitsAreRead(Print(n), rest);
  }

  lemma PrintedNegativeComesBack(n: nat, rest: string)
    requires rest != "" ==> !IsDigit(rest[0])
    ensures ParseInt("-" + Print(n) + rest) == if n <= INT_MAX + 1 then Number(-(n as int)) else NotANumber(OutOfRange)
  {
    hide ParseInt;
    NegativeDigitsAreRead(Print(n), rest);
  }

  /** Text without a digit in front, after at most one minus sign, is no number. */
  lemma NoDigitIsInvalid(s: string)
    requires s == "" || !IsDigit(s[0])
    ensures ParseInt("-" + s) == NotANumber(InvalidArgument)
    ensures (s == "" || s[0] != '-') ==> ParseInt(s) == NotANumber(InvalidArgument)
  {
    assert ("-" + s)[1..] == s;
  }

  /** Different numbers are printed differently. */
  lemma PrintIsInjective(m: nat, n: nat)
    requires Print(m) == Print(n)
    ensures m == n
  {
    assert Value(Print(m)) == Value(Print(n));
  }

  // ---------------------------------------------------------------- comments

  predicate AllBlank(s: string) {
    forall i | 0 <= i < |s| :: s[i] == ' '
  }

  predicate Splits(s: string, r: string, blanks: string, comment: string) {
    s == r + blanks + comment && AllBlank(blanks) && (comment == "" || comment[0] == '#')
  }

  /** `r` is the text before the comment, without the blanks at its end. */
  ghost predicate IsStripped(s: string, r: string) {
    && '#' !in r && (r != "" ==> r[|r| - 1] != ' ')
    && exists blanks, comment :: Splits(s, r, blanks, comment)
  }

  function TrimEnd(s: string): string {
    if s != "" && s[|s| - 1] == ' ' then TrimEnd(s[..|s| - 1]) else s
  }

  function Strip(s: string): string {
    match Find(s, '#')
    case None => TrimEnd(s)
    case Some(i) => TrimEnd(s[..i])
  }

  lemma {:induction false} TrimEndIs(s: string) returns (blanks: string)
    ensures s == TrimEnd(s) + blanks && AllBlank(blanks)
    ensures TrimEnd(s) != "" ==> TrimEnd(s)[|TrimEnd(s)| - 1] != ' '
  {
    if s != "" && s[|s| - 1] == ' ' {
      var b := TrimEndIs(s[..|s| - 1]);
      blanks := b + " ";
      assert s == s[..|s| - 1] + " ";
    } else {
      blanks := "";
    }
  }

  lemma StripIsStripped(s: string)
    ensures IsStripped(s, Strip(s))
  {
    var end := match Find(s, '#') case None => |s| case Some(i) => i;
    assert s[..|s|] == s;
    var blanks := TrimEndIs(s[..end]);
    assert s == s[..end] + s[end..];
    assert Splits(s, Strip(s), blanks, s[end..]);
    assert '#' !in s[..end];
    assert forall k | 0 <= k < |Strip(s)| :: Strip(s)[k] == s[..end][k];
  }

  method RemoveCommentAndTrailingWhitespace(s: string) returns (r: string)
    ensures IsStripped(s, r) && r == Strip(s)
  {
    var found := Find(s, '#');
    var end := if found.Some? then found.value else |s|;
    ghost var all := end;
    assert s[..all] == s[..end] + s[end..all];
    while end > 0 && s[end - 1] == ' '
      invariant 0 <= end <= all && AllBlank(s[end..all])
    {
      end := end - 1;
      assert s[end..all] == [s[end]] + s[end + 1..all];
    }
    r := s[..end];
    ghost var blanks, comment := s[end..all], s[all..];
    assert Splits(s, r, blanks, comment);
    assert '#' !in s[..all];
    assert forall k | 0 <= k < |r| :: r[k] == s[..all][k];
    StripIsStripped(s);
    StrippedIsUnique(s, r, Strip(s));
  }

  /** There is only one way to strip a line. */
  lemma StrippedIsUnique(s: string, a: string, b: string)
    requires IsStripped(s, a) && IsStripped(s, b)
    ensures a == b
  {
    if |a| < |b| {
      ShorterIsNotStripped(s, a, b);
    } else if |b| < |a| {
      ShorterIsNotStripped(s, b, a);
    } else {
      assert a == s[..|a|] == b;
    }
  }

  lemma ShorterIsNotStripped(s: string, a: string, b: string)
    requires IsStripped(s, a) && IsStripped(s, b)
    ensures |a| >= |b|
  {
    var blanks, comment :| Splits(s, a, blanks, comment);
    assert b == s[..|b|];
    assert forall k | 0 <= k < |b| :: s[k] == b[k];
    assert forall k | |a| <= k < |a| + |blanks| :: s[k] == blanks[k - |a|];
    assert comment != "" ==> s[|a| + |blanks|] == '#';
  }

  // ---------------------------------------------------------------- sanitizing

  predicate IsAlnum(c: char) {
    IsDigit(c) || 'a' <= c <= 'z' || 'A' <= c <= 'Z'
  }

  function Clean(c: char): char {
    if IsAlnum(c) || c == '-' || c == '_' then c else '_'
  }

  function CleanAll(s: string): string {
    seq(|s|, i requires 0 <= i < |s| => Clean(s[i]))
  }

  /** `Sanitizer`: an output iterator that keeps the first `maxLength` characters, cleaned. */
  class Sanitizer {
    const maxLength: nat
    var result: string
    ghost var pushed: string

    ghost predicate Valid()
      reads this
    {
      result == CleanAll(if |pushed| <= maxLength then pushed else pushed[..maxLength])
    }

    constructor (max: nat)
      ensures Valid() && maxLength == max && pushed == ""
    {
      maxLength := max;
      result, pushed := "", "";
    }

    method PushBack(c: char)
      requires Valid()
      modifies this
      ensures Valid() && pushed == old(pushed) + [c]
    {
      if |result| < maxLength {
        if IsAlnum(c) || c == '-' || c == '_' {
          result := result + [c];
        } else {
          result := result + ['_'];
        }
      }
      pushed := pushed + [c];
      assert |pushed| > maxLength ==> pushed[..maxLength] == old(pushed)[..maxLength];
    }
  }

  /** `sanitize_filename`, on the characters its transliteration produces. */
  method SanitizeFilename(transliterated: string) returns (r: string)
    ensures r == CleanAll(if |transliterated| <= 64 then transliterated else transliterated[..64])
  {
    var sanitizer := new Sanitizer(64);
    var i := 0;
    while i < |transliterated|
      invariant 0 <= i <= |transliterated| && sanitizer.Valid() && fresh(sanitizer)
      invariant sanitizer.maxLength == 64 && sanitizer.pushed == transliterated[..i]
    {
      sanitizer.PushBack(transliterated[i]);
      i := i + 1;
    }
    r := sanitizer.result;
    assert transliterated[..i] == transliterated;
  }

  /** Character by character: letters, digits, `-` and `_` are kept, and any other character becomes
      `_`. */
  lemma CleanedIs(s: string)
    ensures |CleanAll(s)| == |s|
    ensures forall i | 0 <= i < |s| ::
      CleanAll(s)[i] == if 'a' <= s[i] <= 'z' || 'A' <= s[i] <= 'Z' || '0' <= s[i] <= '9' || s[i] == '-' || s[i] == '_'
                        then s[i] else '_'
  {
  }

  /** A sanitized name has no dot, blank or path separator, and sanitizing again changes nothing. */
  lemma SanitizedIsPlain(s: string)
    ensures DotFree(CleanAll(s)) && '/' !in CleanAll(s) && ' ' !in CleanAll(s)
    ensures CleanAll(CleanAll(s)) == CleanAll(s)
  {
    assert forall i | 0 <= i < |s| ::
      Clean(s[i]) != '.' && Clean(s[i]) != '/' && Clean(s[i]) != ' ' && Clean(Clean(s[i])) == Clean(s[i]);
  }
}
