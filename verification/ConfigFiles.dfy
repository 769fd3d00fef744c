/** Configuration files written out: for every choice of formats there is an accepted file, so what
    `get_formats` may return is what the two lists of a file may hold. */
module ConfigFiles {
  import Text
  import Sorting
  import Sizes
  import opened SizeText
  import opened ConfigFold
  import opened ConfigTheorems

  /** Text that survives as the value of a line. */
  predicate IsPlain(value: string) {
    value != "" && '#' !in value && value[|value| - 1] != ' '
  }

  predicate IsPlainKey(key: string) {
    '#' !in key && '=' !in key
  }

  predicate IsPlainList(formats: seq<string>) {
    formats != [] && forall i | 0 <= i < |formats| :: CommaFree(formats[i]) && IsPlain(formats[i])
  }

  /** A written pair is read as that pair. */
  lemma PairComesBack(key: string, value: string)
    requires IsPlainKey(key) && IsPlain(value)
    ensures LineOf(key + "=" + value) == Pair(key, value)
  {
    var s := key + "=" + value;
    assert s + "" + "" == s;
    assert Text.Splits(s, s, "", "");
    assert Text.IsStripped(s, s);
    Text.StripIsStripped(s);
    Text.StrippedIsUnique(s, s, Text.Strip(s));
    Text.FindIs(key, '=', value);
    assert s[..|key|] == key && s[|key| + 1..] == value;
  }

  lemma {:induction false} JoinIsPlain(formats: seq<string>)
    requires IsPlainList(formats)
    ensures IsPlain(Join(formats))
  {
    if |formats| > 1 {
      assert IsPlainList(formats[1..]);
      JoinIsPlain(formats[1..]);
    }
  }

  lemma ListComesBack(formats: seq<string>)
    requires IsPlainList(formats)
    ensures Split(Join(formats)) == formats
  {
    var s := Join(formats);
    JoinIsPlain(formats);
    LastOfJoin(formats);
    SplitIsSplit(s);
    SplitIsUnique(s, Split(s), formats);
  }

  lemma SizesComeBack()
    ensures IsPlain(Text.Print(100)) && ParsePieces(Split(Text.Print(100))) == Fine([Sizes.SizeSpec(100, 0, false)])
  {
    PrintHas(100, '#');
    PrintHas(100, ' ');
    var specs := [Sizes.SizeSpec(100, 0, false)];
    SizeListRoundTrip(specs);
    assert Join(PrintPieces(specs)) == Text.Print(100);
  }

  function PairOf(format: string, own: seq<string>, all: seq<string>, i: nat): (string, string) {
    if i == 0 then ("sizes", Text.Print(100))
    else if i == 1 then ("formats." + format, Join(own))
    else if i == 2 then ("formats.*", Join(all))
    else if i == 3 then ("storage.type", "fs")
    else if i == 4 then ("storage.data_dir", "data")
    else ("storage.temp_dir", "temp")
  }

  function KeyAt(format: string, i: nat): Key {
    if i == 0 then SizeList else if i == 1 then FormatKey(format) else if i == 2 then FormatKey("*")
    else if i == 3 then StorageType else if i == 4 then StorageKey("data_dir") else StorageKey("temp_dir")
  }

  /** A file that lists `own` for one format and `all` for every format. */
  function FileFor(format: string, own: seq<string>, all: seq<string>): seq<string> {
    seq(6, i requires 0 <= i < 6 => PairOf(format, own, all, i).0 + "=" + PairOf(format, own, all, i).1)
  }

  lemma PairIsPlain(format: string, own: seq<string>, all: seq<string>, i: nat)
    requires IsPlainKey(format) && IsPlainList(own) && IsPlainList(all)
    ensures IsPlainKey(PairOf(format, own, all, i).0) && IsPlain(PairOf(format, own, all, i).1)
  {
    hide IsPlainList, Join, Text.Print, ParsePieces, Split;
    JoinIsPlain(own);
    JoinIsPlain(all);
    SizesComeBack();
    var (key, value) := PairOf(format, own, all, i);
    if i == 1 {
      assert IsPlainKey("formats.");
    } else if i == 0 || i == 2 || i == 3 {
      assert IsPlainKey("sizes") && IsPlainKey("formats.*") && IsPlainKey("storage.type");
    } else {
      assert IsPlainKey("storage.data_dir") && IsPlainKey("storage.temp_dir");
    }
  }

  lemma PairIsValid(bytes: Bytes, format: string, own: seq<string>, all: seq<string>, i: nat)
    requires IsPlainList(own) && IsPlainList(all)
    ensures IsValid(bytes, KeyAt(format, i), PairOf(format, own, all, i).1)
  {
    assert own != [] && all != [];
    hide Split, Join, IsPlainList, ParsePieces, Text.Print;
    ListComesBack(own);
    ListComesBack(all);
    SizesComeBack();
  }

  lemma LineIs(bytes: Bytes, format: string, own: seq<string>, all: seq<string>, i: nat)
    requires IsPlainKey(format) && IsPlainList(own) && IsPlainList(all) && i < 6
    ensures var (key, value) := PairOf(format, own, all, i);
      LineOf(FileFor(format, own, all)[i]) == Pair(key, value) && KeyOf(key) == KeyAt(format, i)
      && IsValid(bytes, KeyAt(format, i), value)
  {
    hide LineOf, IsPlainList, IsPlain, IsPlainKey, PairOf, KeyOf, KeyAt, IsValid;
    PairIsPlain(format, own, all, i);
    PairIsValid(bytes, format, own, all, i);
    KeyIs(format, own, all, i);
    PairComesBack(PairOf(format, own, all, i).0, PairOf(format, own, all, i).1);
  }

  lemma FormatKeyIs(format: string)
    ensures KeyOf("formats." + format) == FormatKey(format)
  {
    var key := "formats." + format;
    assert key[0] == 'f' && key[..8] == "formats." && key[8..] == format;
  }

  lemma OtherKeysAre()
    ensures KeyOf("sizes") == SizeList && KeyOf("storage.type") == StorageType
    ensures KeyOf("storage.data_dir") == StorageKey("data_dir") && KeyOf("storage.temp_dir") == StorageKey("temp_dir")
  {
  }

  lemma KeyIs(format: string, own: seq<string>, all: seq<string>, i: nat)
    requires i < 6
    ensures KeyOf(PairOf(format, own, all, i).0) == KeyAt(format, i)
  {
    hide KeyOf;
    OtherKeysAre();
    FormatKeyIs(format);
    FormatKeyIs("*");
    assert "formats." + "*" == "formats.*";
  }

  lemma KeysAtDiffer(format: string, i: nat, j: nat)
    requires i < j < 6 && format != "*"
    ensures KeyAt(format, i) != KeyAt(format, j)
  {
  }

  lemma FileIsAcceptable(bytes: Bytes, format: string, own: seq<string>, all: seq<string>)
    requires IsPlainKey(format) && IsPlainList(own) && IsPlainList(all) && format != "*"
    ensures Acceptable(bytes, FileFor(format, own, all))
  {
    hide LineOf, KeyOf, IsPlainList, PairOf, IsValid;
    var lines := FileFor(format, own, all);
    forall i: nat | i < 6 ensures LineOk(bytes, LineOf(lines[i])) {
      LineIs(bytes, format, own, all, i);
    }
    assert forall i: nat | i < 6 :: LineOf(lines[i]).Pair? by {
      forall i: nat | i < 6 ensures LineOf(lines[i]).Pair? { LineIs(bytes, format, own, all, i); }
    }
    forall i, j | 0 <= i < j < 6 ensures LineOf(lines[i]).key != LineOf(lines[j]).key {
      LineIs(bytes, format, own, all, i);
      LineIs(bytes, format, own, all, j);
      KeysAtDiffer(format, i, j);
    }
    LineIs(bytes, format, own, all, 3);
    forall i | 0 <= i < 6 && KeyOf(LineOf(lines[i]).key).StorageKey? ensures HasKey(lines[..i], StorageType) {
      LineIs(bytes, format, own, all, i);
      assert i > 3 && lines[..i][3] == lines[3];
    }
  }

  lemma KeyIsKnown(format: string, i: nat)
    ensures !KeyAt(format, i).Unknown? && !KeyAt(format, i).KillTimeout? && !KeyAt(format, i).ProcessingTimeout?
  {
  }

  /** The settings of that file. */
  lemma SettingIs(bytes: Bytes, format: string, own: seq<string>, all: seq<string>, i: nat)
    requires IsPlainKey(format) && IsPlainList(own) && IsPlainList(all) && format != "*" && i < 6
    ensures var m := ToMap(FileFor(format, own, all));
      KeyAt(format, i) in m && m[KeyAt(format, i)] == PairOf(format, own, all, i).1
  {
    hide LineOf, KeyOf, IsPlainList, PairOf, IsValid, KeyAt, ToMap;
    FileIsAcceptable(bytes, format, own, all);
    LineIs(bytes, format, own, all, i);
    KeyIsKnown(format, i);
    ValueOfLine(FileFor(format, own, all), i);
  }

  lemma NoOtherSetting(bytes: Bytes, format: string, own: seq<string>, all: seq<string>)
    requires IsPlainKey(format) && IsPlainList(own) && IsPlainList(all) && format != "*"
    ensures var m := ToMap(FileFor(format, own, all)); KillTimeout !in m && ProcessingTimeout !in m
  {
    hide LineOf, KeyOf, IsPlainList, PairOf, IsValid, KeyAt, ToMap;
    var lines := FileFor(format, own, all);
    ToMapKeys(lines);
    forall i: nat | i < 6 ensures LineOf(lines[i]).Pair? && !KeyOf(LineOf(lines[i]).key).KillTimeout?
      && !KeyOf(LineOf(lines[i]).key).ProcessingTimeout?
    {
      LineIs(bytes, format, own, all, i);
      KeyIsKnown(format, i);
    }
  }

  /** Every two lists of formats, for one format and for all, are those of an accepted file. */
  lemma EveryChoiceIsConfigurable(bytes: Bytes, format: string, own: seq<string>, all: seq<string>)
    requires IsPlainKey(format) && IsPlainList(own) && IsPlainList(all) && format != "*"
    ensures var r := ParseLines(bytes, FileFor(format, own, all));
      r.Fine? && GetFormats(r.value, format) == own + all
  {
    var lines := FileFor(format, own, all);
    hide LineOf, KeyOf, IsPlainList, IsPlainKey, Acceptable, Split, Join, ToMap, ParseLines, FileFor, ParsePieces, Text.Print,
      Complete, FromMap, FormatsOf, GetFormats;
    FileIsAcceptable(bytes, format, own, all);
    ParseIsExact(bytes, lines);
    var m := ToMap(lines);
    SettingIs(bytes, format, own, all, 0);
    SettingIs(bytes, format, own, all, 1);
    SettingIs(bytes, format, own, all, 2);
    SettingIs(bytes, format, own, all, 3);
    SettingIs(bytes, format, own, all, 4);
    SettingIs(bytes, format, own, all, 5);
    NoOtherSetting(bytes, format, own, all);
    SizesComeBack();
    ListComesBack(own);
    ListComesBack(all);
    SettingsAreComplete(bytes, m, format);
    FormatSettings(m, format, own, all);
    FormatsAre(bytes, m, format, own, all);
  }

  lemma SettingsAreComplete(bytes: Bytes, m: Settings, format: string)
    requires SizeList in m && ParsePieces(Split(m[SizeList])) == Fine([Sizes.SizeSpec(100, 0, false)])
    requires FormatKey(format) in m && StorageType in m
    requires NumberOf(Lookup(m, KillTimeout), UINT, 10) > NumberOf(Lookup(m, ProcessingTimeout), UINT, 8) > 0
    requires StorageKey("data_dir") in m && m[StorageKey("data_dir")] != ""
    requires StorageKey("temp_dir") in m && m[StorageKey("temp_dir")] != ""
    ensures Complete(FromMap(bytes, m))
  {
    hide ParsePieces, Split, FormatsOf, LimitOf, PoolSizeOf, HeaderOf;
    InFormats(m, format);
    assert FormatsOf(m) != map[];
  }

  lemma FormatsAre(bytes: Bytes, m: Settings, format: string, own: seq<string>, all: seq<string>)
    requires format in FormatsOf(m) && FormatsOf(m)[format] == own && "*" in FormatsOf(m) && FormatsOf(m)["*"] == all
    ensures GetFormats(FromMap(bytes, m), format) == own + all
  {
    hide FormatsOf, LimitOf, SpecsOf, NumberOf, PoolSizeOf, StorageOf, HeaderOf, TextOf, Lookup;
  }

  lemma FormatSettings(m: Settings, format: string, own: seq<string>, all: seq<string>)
    requires FormatKey(format) in m && FormatKey("*") in m
    requires Split(m[FormatKey(format)]) == own && Split(m[FormatKey("*")]) == all
    ensures format in FormatsOf(m) && FormatsOf(m)[format] == own && "*" in FormatsOf(m) && FormatsOf(m)["*"] == all
  {
    hide Split;
    InFormats(m, format);
    InFormats(m, "*");
  }

  /** An accepted file with which every image of a format is saved twice to the same name. */
  lemma FormatsCanRepeat(bytes: Bytes)
    ensures var r := ParseLines(bytes, FileFor("webp", ["webp"], ["webp"]));
      r.Fine? && GetFormats(r.value, "webp") == ["webp", "webp"] && !Sorting.Distinct(GetFormats(r.value, "webp"))
  {
    hide ParseLines;
    EveryChoiceIsConfigurable(bytes, "webp", ["webp"], ["webp"]);
    var formats := GetFormats(ParseLines(bytes, FileFor("webp", ["webp"], ["webp"])).value, "webp");
    assert formats[0] == formats[1];
  }
}
