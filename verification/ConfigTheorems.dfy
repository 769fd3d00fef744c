/** What a configuration file means: exactly which files are accepted, that the order of the
    lines does not matter, and what holds of every accepted configuration. */
module ConfigTheorems {
  import Text
  import Sorting
  import Sizes
  import opened SizeText
  import opened ConfigFold

  type Settings = map<Key, string>

  // ---------------------------------------------------------------- a configuration as a lookup

  /** Whether a pair is acceptable by itself. */
  predicate IsValid(bytes: Bytes, key: Key, value: string) {
    match key
    case ListenHost => true
    case ListenPort => Text.ParseInt(value).Number?
    case ProcessingTimeout => Text.ParseInt(value).Number?
    case KillTimeout => Text.ParseInt(value).Number?
    case ThreadPoolSize => Text.ParseInt(value).Number?
    case UploadLimit => bytes(value).Some?
    case AuthToken => true
    case SizeList => ParsePieces(Split(value)).Fine?
    case StorageType => value == "fs"
    case StorageKey(name) => name == "data_dir" || name == "temp_dir"
    case FormatKey(format) => Split(value) != []
    case Unknown => false
  }

  function Lookup(m: Settings, key: Key): Option<string> {
    if key in m then Some(m[key]) else None
  }

  function TextOf(o: Option<string>, default: string): string {
    if o.Some? then o.value else default
  }

  function NumberOf(o: Option<string>, modulus: nat, default: nat): nat
    requires modulus > 0
  {
    if o.Some? && ParseUnsigned(o.value, modulus).Fine? then ParseUnsigned(o.value, modulus).value else default
  }

  function PoolSizeOf(o: Option<string>): Option<nat> {
    if o.Some? && ParseUnsigned(o.value, UINT).Fine? then Some(ParseUnsigned(o.value, UINT).value) else None
  }

  function LimitOf(bytes: Bytes, o: Option<string>): nat {
    if o.Some? && bytes(o.value).Some? then bytes(o.value).value else 20 * 1024 * 1024
  }

  function SpecsOf(o: Option<string>): seq<Sizes.SizeSpec> {
    if o.Some? && ParsePieces(Split(o.value)).Fine? then ParsePieces(Split(o.value)).value else []
  }

  function HeaderOf(o: Option<string>): string {
    if o.Some? then "Bearer " + o.value else ""
  }

  function StorageOf(kind: Option<string>, data: Option<string>, temp: Option<string>): Option<Dirs> {
    if kind.Some? then Some(Dirs(TextOf(data, ""), TextOf(temp, ""))) else None
  }

  function FormatsOf(m: Settings): map<string, seq<string>> {
    map f | f in (set k | k in m && k.FormatKey? :: k.format) && FormatKey(f) in m :: Split(m[FormatKey(f)])
  }

  /** The configuration in which every field is looked up under its key. */
  function FromMap(bytes: Bytes, m: Settings): Config {
    Config(
      TextOf(Lookup(m, ListenHost), "127.0.0.1"),
      NumberOf(Lookup(m, ListenPort), 65536, 8000),
      NumberOf(Lookup(m, ProcessingTimeout), UINT, 8),
      NumberOf(Lookup(m, KillTimeout), UINT, 10),
      PoolSizeOf(Lookup(m, ThreadPoolSize)),
      LimitOf(bytes, Lookup(m, UploadLimit)),
      SpecsOf(Lookup(m, SizeList)),
      FormatsOf(m),
      HeaderOf(Lookup(m, AuthToken)),
      StorageOf(Lookup(m, StorageType), Lookup(m, StorageKey("data_dir")), Lookup(m, StorageKey("temp_dir"))))
  }

  lemma LookupAfter(m: Settings, key: Key, value: string, k: Key)
    ensures Lookup(m[key := value], k) == if k == key then Some(value) else Lookup(m, k)
  {
  }

  /** The configuration after one more setting, field by field. */
  lemma FromMapAfter(bytes: Bytes, m: Settings, key: Key, value: string)
    requires key !in m
    ensures FromMap(bytes, m[key := value]) == Config(
      TextOf(if key == ListenHost then Some(value) else Lookup(m, ListenHost), "127.0.0.1"),
      NumberOf(if key == ListenPort then Some(value) else Lookup(m, ListenPort), 65536, 8000),
      NumberOf(if key == ProcessingTimeout then Some(value) else Lookup(m, ProcessingTimeout), UINT, 8),
      NumberOf(if key == KillTimeout then Some(value) else Lookup(m, KillTimeout), UINT, 10),
      PoolSizeOf(if key == ThreadPoolSize then Some(value) else Lookup(m, ThreadPoolSize)),
      LimitOf(bytes, if key == UploadLimit then Some(value) else Lookup(m, UploadLimit)),
      SpecsOf(if key == SizeList then Some(value) else Lookup(m, SizeList)),
      if key.FormatKey? then FormatsOf(m)[key.format := Split(value)] else FormatsOf(m),
      HeaderOf(if key == AuthToken then Some(value) else Lookup(m, AuthToken)),
      StorageOf(if key == StorageType then Some(value) else Lookup(m, StorageType),
                if key == StorageKey("data_dir") then Some(value) else Lookup(m, StorageKey("data_dir")),
                if key == StorageKey("temp_dir") then Some(value) else Lookup(m, StorageKey("temp_dir"))))
  {
    hide Lookup, TextOf, NumberOf, PoolSizeOf, LimitOf, SpecsOf, HeaderOf, StorageOf, FormatsOf, Split;
    FormatsAfter(m, key, value);
    LookupAfter(m, key, value, ListenHost);
    LookupAfter(m, key, value, ListenPort);
    LookupAfter(m, key, value, ProcessingTimeout);
    LookupAfter(m, key, value, KillTimeout);
    LookupAfter(m, key, value, ThreadPoolSize);
    LookupAfter(m, key, value, UploadLimit);
    LookupAfter(m, key, value, SizeList);
    LookupAfter(m, key, value, AuthToken);
    LookupAfter(m, key, value, StorageType);
    LookupAfter(m, key, value, StorageKey("data_dir"));
    LookupAfter(m, key, value, StorageKey("temp_dir"));
  }

  lemma FormatsAfter(m: Settings, key: Key, value: string)
    requires key !in m
    ensures FormatsOf(m[key := value]) == if key.FormatKey? then FormatsOf(m)[key.format := Split(value)] else FormatsOf(m)
  {
    var m' := m[key := value];
    forall f ensures
      && (f in FormatsOf(m') <==> FormatKey(f) in m') && (f in FormatsOf(m) <==> FormatKey(f) in m)
      && (f in FormatsOf(m') ==> FormatsOf(m')[f] == Split(m'[FormatKey(f)]))
      && (f in FormatsOf(m) ==> FormatsOf(m)[f] == Split(m[FormatKey(f)]))
    {
      InFormats(m', f);
      InFormats(m, f);
    }
    hide Split, FormatsOf;
  }

  lemma InFormats(m: Settings, f: string)
    ensures f in FormatsOf(m) <==> FormatKey(f) in m
    ensures f in FormatsOf(m) ==> FormatsOf(m)[f] == Split(m[FormatKey(f)])
  {
    if FormatKey(f) in m { assert FormatKey(f).format == f; }
  }

  /** The pair is entered in the lookup, or refused. */
  ghost predicate Enters(bytes: Bytes, m: Settings, key: Key, value: string) {
    var r := Assign(bytes, FromMap(bytes, m), key, value);
    if IsValid(bytes, key, value) && (key.StorageKey? ==> StorageType in m)
    then r == Fine(FromMap(bytes, m[key := value])) else !r.Fine?
  }

  lemma NumberEnters(bytes: Bytes, m: Settings, key: Key, value: string)
    requires key !in m && (key.ListenPort? || key.ProcessingTimeout? || key.KillTimeout? || key.ThreadPoolSize?)
    ensures Enters(bytes, m, key, value)
  {
    FromMapAfter(bytes, m, key, value);
    hide Lookup, TextOf, LimitOf, SpecsOf, HeaderOf, StorageOf, FormatsOf, Split, Text.ParseInt, ParsePieces;
  }

  lemma OtherEnters(bytes: Bytes, m: Settings, key: Key, value: string)
    requires key !in m && (key.ListenHost? || key.UploadLimit? || key.AuthToken? || key.SizeList? || key.Unknown?)
    ensures Enters(bytes, m, key, value)
  {
    FromMapAfter(bytes, m, key, value);
    hide Lookup, NumberOf, PoolSizeOf, StorageOf, FormatsOf, Split, ParsePieces, ParseUnsigned;
  }

  lemma StorageEnters(bytes: Bytes, m: Settings, key: Key, value: string)
    requires key !in m && (key.StorageType? || key.StorageKey?)
    requires key == StorageType ==> forall name :: StorageKey(name) !in m
    ensures Enters(bytes, m, key, value)
  {
    FromMapAfter(bytes, m, key, value);
    hide NumberOf, PoolSizeOf, LimitOf, SpecsOf, HeaderOf, FormatsOf, Split, ParsePieces, ParseUnsigned;
  }

  lemma FormatEnters(bytes: Bytes, m: Settings, key: Key, value: string)
    requires key !in m && key.FormatKey?
    ensures Enters(bytes, m, key, value)
  {
    FromMapAfter(bytes, m, key, value);
    InFormats(m, key.format);
    hide Lookup, TextOf, NumberOf, PoolSizeOf, LimitOf, SpecsOf, HeaderOf, StorageOf, FormatsOf, Split, ParsePieces, ParseUnsigned;
  }

  /** A new pair is entered in the lookup, or refused if it is not valid or comes too early. */
  lemma AssignIs(bytes: Bytes, m: Settings, key: Key, value: string)
    requires key !in m && (key == StorageType ==> forall name :: StorageKey(name) !in m)
    ensures Enters(bytes, m, key, value)
  {
    hide Enters;
    match key
    case StorageType => StorageEnters(bytes, m, key, value);
    case StorageKey(name) => StorageEnters(bytes, m, key, value);
    case FormatKey(format) => FormatEnters(bytes, m, key, value);
    case ListenPort => NumberEnters(bytes, m, key, value);
    case ProcessingTimeout => NumberEnters(bytes, m, key, value);
    case KillTimeout => NumberEnters(bytes, m, key, value);
    case ThreadPoolSize => NumberEnters(bytes, m, key, value);
    case _ => OtherEnters(bytes, m, key, value);
  }

  // ---------------------------------------------------------------- all lines as a lookup

  function ToMap(lines: seq<string>): Settings {
    if lines == [] then map[] else
    var m := ToMap(lines[..|lines| - 1]);
    match LineOf(lines[|lines| - 1])
    case Pair(key, value) => m[KeyOf(key) := value]
    case _ => m
  }

  predicate HasKey(lines: seq<string>, key: Key) {
    exists i | 0 <= i < |lines| :: LineOf(lines[i]).Pair? && KeyOf(LineOf(lines[i]).key) == key
  }

  /** `storage.type` comes before every other storage key. */
  predicate StorageFirst(lines: seq<string>) {
    forall i | 0 <= i < |lines| ::
      LineOf(lines[i]).Pair? && KeyOf(LineOf(lines[i]).key).StorageKey? ==> HasKey(lines[..i], StorageType)
  }

  predicate LineOk(bytes: Bytes, line: Line) {
    !line.Broken? && (line.Pair? ==> IsValid(bytes, KeyOf(line.key), line.value))
  }

  predicate KeysDiffer(lines: seq<string>) {
    forall i, j | 0 <= i < j < |lines| ::
      LineOf(lines[i]).Pair? && LineOf(lines[j]).Pair? ==> LineOf(lines[i]).key != LineOf(lines[j]).key
  }

  /** Every line is a pair that is valid by itself, no key is repeated, and the storage keys come
      in order. */
  predicate Acceptable(bytes: Bytes, lines: seq<string>) {
    (forall i | 0 <= i < |lines| :: LineOk(bytes, LineOf(lines[i]))) && KeysDiffer(lines) && StorageFirst(lines)
  }

  function Keys(lines: seq<string>): set<string> {
    if lines == [] then {} else
    Keys(lines[..|lines| - 1])
      + (match LineOf(lines[|lines| - 1])
         case Pair(key, value) => {key}
         case _ => {})
  }

  lemma {:induction false} KeysAre(lines: seq<string>)
    ensures forall key :: key in Keys(lines) <==>
      exists i :: 0 <= i < |lines| && LineOf(lines[i]).Pair? && LineOf(lines[i]).key == key
  {
    hide LineOf;
    if lines == [] {
    } else {
      var before := lines[..|lines| - 1];
      KeysAre(before);
      forall key ensures key in Keys(lines) <==>
        exists i :: 0 <= i < |lines| && LineOf(lines[i]).Pair? && LineOf(lines[i]).key == key
      {
        if key in Keys(before) {
          var i :| 0 <= i < |before| && LineOf(before[i]).Pair? && LineOf(before[i]).key == key;
          assert lines[i] == before[i];
        }
        if i :| 0 <= i < |lines| && LineOf(lines[i]).Pair? && LineOf(lines[i]).key == key {
          assert i < |before| ==> before[i] == lines[i];
        }
      }
    }
  }

  lemma {:induction false} ToMapKeys(lines: seq<string>)
    ensures forall key :: key in ToMap(lines) <==> HasKey(lines, key)
  {
    hide LineOf;
    if lines == [] {
    } else {
      var before := lines[..|lines| - 1];
      ToMapKeys(before);
      forall key ensures key in ToMap(lines) <==> HasKey(lines, key) {
        if HasKey(before, key) {
          var i :| 0 <= i < |before| && LineOf(before[i]).Pair? && KeyOf(LineOf(before[i]).key) == key;
          assert lines[i] == before[i];
        }
        if i :| 0 <= i < |lines| && LineOf(lines[i]).Pair? && KeyOf(LineOf(lines[i]).key) == key {
          assert i < |before| ==> before[i] == lines[i];
        }
      }
    }
  }

  /** What the last line adds to acceptability. */
  predicate LastOk(bytes: Bytes, lines: seq<string>)
    requires lines != []
  {
    var before, line := lines[..|lines| - 1], LineOf(lines[|lines| - 1]);
    && LineOk(bytes, line)
    && (line.Pair? ==> line.key !in Keys(before)
                       && (KeyOf(line.key).StorageKey? ==> HasKey(before, StorageType)))
  }

  lemma AcceptableBefore(bytes: Bytes, lines: seq<string>)
    requires lines != [] && Acceptable(bytes, lines)
    ensures Acceptable(bytes, lines[..|lines| - 1]) && LastOk(bytes, lines)
  {
    var before, n := lines[..|lines| - 1], |lines| - 1;
    hide LineOf, Keys, HasKey, LineOk;
    forall i | 0 <= i < n ensures lines[i] == before[i] && lines[..i] == before[..i] {
    }
    LastIsOk(bytes, lines);
  }

  lemma LastIsOk(bytes: Bytes, lines: seq<string>)
    requires lines != [] && Acceptable(bytes, lines)
    ensures LastOk(bytes, lines)
  {
    var before, n := lines[..|lines| - 1], |lines| - 1;
    KeysAre(before);
    hide LineOf, KeyOf, Keys, HasKey, LineOk;
    assert lines[..n] == before;
    forall i | 0 <= i < n ensures lines[i] == before[i] {
    }
  }

  lemma KeysDifferAfter(lines: seq<string>)
    requires lines != [] && KeysDiffer(lines[..|lines| - 1])
    requires var line := LineOf(lines[|lines| - 1]); line.Pair? ==> line.key !in Keys(lines[..|lines| - 1])
    ensures KeysDiffer(lines)
  {
    var before, n := lines[..|lines| - 1], |lines| - 1;
    KeysAre(before);
    hide LineOf, Keys;
    forall i, j | 0 <= i < j < |lines| && LineOf(lines[i]).Pair? && LineOf(lines[j]).Pair?
      ensures LineOf(lines[i]).key != LineOf(lines[j]).key
    {
      assert before[i] == lines[i];
      if j < n { assert before[j] == lines[j]; }
    }
  }

  lemma StorageFirstAfter(lines: seq<string>)
    requires lines != [] && StorageFirst(lines[..|lines| - 1])
    requires var line := LineOf(lines[|lines| - 1]);
      line.Pair? && KeyOf(line.key).StorageKey? ==> HasKey(lines[..|lines| - 1], StorageType)
    ensures StorageFirst(lines)
  {
    var before, n := lines[..|lines| - 1], |lines| - 1;
    hide LineOf, KeyOf, HasKey;
    forall i | 0 <= i < |lines| && LineOf(lines[i]).Pair? && KeyOf(LineOf(lines[i]).key).StorageKey?
      ensures HasKey(lines[..i], StorageType)
    {
      if i < n { assert before[i] == lines[i] && before[..i] == lines[..i]; }
    }
  }

  lemma AcceptableAfter(bytes: Bytes, lines: seq<string>)
    requires lines != [] && Acceptable(bytes, lines[..|lines| - 1]) && LastOk(bytes, lines)
    ensures Acceptable(bytes, lines)
  {
    KeysDifferAfter(lines);
    StorageFirstAfter(lines);
    hide LineOf, Keys, HasKey, LineOk, KeysDiffer, StorageFirst;
    forall i | 0 <= i < |lines| ensures LineOk(bytes, LineOf(lines[i])) {
      if i < |lines| - 1 { assert lines[..|lines| - 1][i] == lines[i]; }
    }
  }

  /** A known key that has not been seen is not in the lookup. */
  lemma NewKey(lines: seq<string>, key: string)
    requires key !in Keys(lines) && !KeyOf(key).Unknown?
    ensures KeyOf(key) !in ToMap(lines)
  {
    KeysAre(lines);
    ToMapKeys(lines);
    hide LineOf, KeyOf;
    if HasKey(lines, KeyOf(key)) {
      var i :| 0 <= i < |lines| && LineOf(lines[i]).Pair? && KeyOf(LineOf(lines[i]).key) == KeyOf(key);
      KnownKeysDiffer(LineOf(lines[i]).key, key);
    }
  }

  /** While `storage.type` is missing, so are the other storage keys. */
  lemma StorageInOrder(bytes: Bytes, lines: seq<string>, name: string)
    requires Acceptable(bytes, lines) && StorageKey(name) in ToMap(lines)
    ensures StorageType in ToMap(lines)
  {
    ToMapKeys(lines);
    hide LineOf, KeyOf, ToMap;
    var i :| 0 <= i < |lines| && LineOf(lines[i]).Pair? && KeyOf(LineOf(lines[i]).key) == StorageKey(name);
    assert HasKey(lines[..i], StorageType);
    var j :| 0 <= j < i && LineOf(lines[..i][j]).Pair? && KeyOf(LineOf(lines[..i][j]).key) == StorageType;
    assert lines[..i][j] == lines[j];
  }

  lemma UnknownIsRefused(bytes: Bytes, cfg: Config, key: Key, value: string)
    requires key.Unknown?
    ensures !Assign(bytes, cfg, key, value).Fine? && !IsValid(bytes, key, value)
  {
  }

  /** A new pair after acceptable lines. */
  lemma PairIs(bytes: Bytes, before: seq<string>, key: string, value: string)
    requires Acceptable(bytes, before) && key !in Keys(before)
    ensures var r := Assign(bytes, FromMap(bytes, ToMap(before)), KeyOf(key), value);
      if IsValid(bytes, KeyOf(key), value) && (KeyOf(key).StorageKey? ==> HasKey(before, StorageType))
      then r == Fine(FromMap(bytes, ToMap(before)[KeyOf(key) := value])) else !r.Fine?
  {
    ToMapKeys(before);
    if KeyOf(key).Unknown? {
      UnknownIsRefused(bytes, FromMap(bytes, ToMap(before)), KeyOf(key), value);
    } else {
      NewKey(before, key);
      forall name ensures StorageKey(name) in ToMap(before) ==> StorageType in ToMap(before) {
        if StorageKey(name) in ToMap(before) { StorageInOrder(bytes, before, name); }
      }
      hide KeyOf, Assign, IsValid, FromMap, Acceptable, HasKey, ToMap;
      AssignIs(bytes, ToMap(before), KeyOf(key), value);
    }
  }

  /** One line after acceptable ones. */
  lemma ReadLineIs(bytes: Bytes, lines: seq<string>)
    requires lines != [] && Acceptable(bytes, lines[..|lines| - 1])
    ensures var before := lines[..|lines| - 1];
      var r := ReadLine(bytes, Reading(FromMap(bytes, ToMap(before)), Keys(before)), lines[|lines| - 1]);
      if LastOk(bytes, lines) then r == Fine(Reading(FromMap(bytes, ToMap(lines)), Keys(lines))) else !r.Fine?
  {
    hide LineOf, KeyOf, Assign, IsValid, FromMap, Acceptable, HasKey;
    var before, line := lines[..|lines| - 1], LineOf(lines[|lines| - 1]);
    match line
    case Blank => assert Keys(lines) == Keys(before);
    case Broken =>
    case Pair(key, value) => if key !in Keys(before) { PairIs(bytes, before, key, value); }
  }

  lemma {:induction false} ReadingIs(bytes: Bytes, lines: seq<string>)
    ensures if Acceptable(bytes, lines)
            then ReadLines(bytes, lines) == Fine(Reading(FromMap(bytes, ToMap(lines)), Keys(lines)))
            else !ReadLines(bytes, lines).Fine?
  {
    if lines == [] {
      assert FormatsOf(map[]) == map[];
    } else {
      var before := lines[..|lines| - 1];
      ReadingIs(bytes, before);
      hide Acceptable, LastOk, ReadLine, FromMap, ToMap, Keys;
      if Acceptable(bytes, before) {
        ReadLineIs(bytes, lines);
        if LastOk(bytes, lines) { AcceptableAfter(bytes, lines); }
      }
      if Acceptable(bytes, lines) { AcceptableBefore(bytes, lines); }
    }
  }

  // ---------------------------------------------------------------- theorems

  /** Exactly which files are accepted, and what they mean. */
  lemma ParseIsExact(bytes: Bytes, lines: seq<string>)
    ensures ParseLines(bytes, lines).Fine? <==> Acceptable(bytes, lines) && Complete(FromMap(bytes, ToMap(lines)))
    ensures ParseLines(bytes, lines).Fine? ==> ParseLines(bytes, lines).value == FromMap(bytes, ToMap(lines))
  {
    ReadingIs(bytes, lines);
    hide Acceptable, FromMap, ToMap, ReadLines, Complete;
  }

  /** The second throw of the formats branch is never reached: its key would have been refused
      as a duplicate before. */
  lemma DuplicateFormatIsUnreachable(bytes: Bytes, lines: seq<string>, key: string)
    requires ReadLines(bytes, lines).Fine? && key !in ReadLines(bytes, lines).value.seen && KeyOf(key).FormatKey?
    ensures KeyOf(key).format !in ReadLines(bytes, lines).value.cfg.formats
  {
    ReadingIs(bytes, lines);
    hide Acceptable, ReadLines, KeyOf;
    NewKey(lines, key);
    InFormats(ToMap(lines), KeyOf(key).format);
  }

  /** What every accepted configuration satisfies. */
  lemma AcceptedIsComplete(bytes: Bytes, lines: seq<string>)
    requires ParseLines(bytes, lines).Fine?
    ensures var cfg := ParseLines(bytes, lines).value;
      && cfg.sizes != [] && cfg.formats != map[] && cfg.storage.Some?
      && cfg.killTimeout > cfg.processingTimeout > 0
      && (forall f | f in cfg.formats :: cfg.formats[f] != [])
  {
    ParseIsExact(bytes, lines);
    var m := ToMap(lines);
    forall f | f in FormatsOf(m) ensures FormatsOf(m)[f] != [] {
      InFormats(m, f);
      FormatIsListed(bytes, lines, f);
    }
  }

  lemma FormatIsListed(bytes: Bytes, lines: seq<string>, f: string)
    requires Acceptable(bytes, lines) && FormatKey(f) in ToMap(lines)
    ensures Split(ToMap(lines)[FormatKey(f)]) != []
  {
    var i := LineOfKey(bytes, lines, FormatKey(f));
    assert LineOk(bytes, LineOf(lines[i]));
    hide LineOf, KeyOf, Split, ToMap;
  }

  /** The line a setting comes from. */
  lemma {:induction false} LineOfKey(bytes: Bytes, lines: seq<string>, key: Key) returns (i: nat)
    requires key in ToMap(lines)
    ensures i < |lines| && LineOf(lines[i]).Pair? && KeyOf(LineOf(lines[i]).key) == key && LineOf(lines[i]).value == ToMap(lines)[key]
  {
    hide LineOf, KeyOf;
    var before, line := lines[..|lines| - 1], LineOf(lines[|lines| - 1]);
    if line.Pair? && KeyOf(line.key) == key {
      i := |lines| - 1;
    } else {
      i := LineOfKey(bytes, before, key);
      assert before[i] == lines[i];
    }
  }

  lemma {:induction false} ValueOfLine(lines: seq<string>, i: nat)
    requires KeysDiffer(lines) && i < |lines| && LineOf(lines[i]).Pair? && !KeyOf(LineOf(lines[i]).key).Unknown?
    ensures KeyOf(LineOf(lines[i]).key) in ToMap(lines) && ToMap(lines)[KeyOf(LineOf(lines[i]).key)] == LineOf(lines[i]).value
  {
    hide LineOf, KeyOf;
    if i == |lines| - 1 {
    } else {
      var before, last := lines[..|lines| - 1], LineOf(lines[|lines| - 1]);
      assert before[i] == lines[i];
      forall j, k | 0 <= j < k < |before| && LineOf(before[j]).Pair? && LineOf(before[k]).Pair?
        ensures LineOf(before[j]).key != LineOf(before[k]).key
      {
        assert before[j] == lines[j] && before[k] == lines[k];
      }
      ValueOfLine(before, i);
      if last.Pair? && KeyOf(last.key) == KeyOf(LineOf(lines[i]).key) {
        KnownKeysDiffer(last.key, LineOf(lines[i]).key);
      }
    }
  }

  lemma SameElements(lines: seq<string>, lines': seq<string>, i: nat) returns (j: nat)
    requires multiset(lines) == multiset(lines') && i < |lines|
    ensures j < |lines'| && lines'[j] == lines[i]
  {
    assert lines[i] in multiset(lines');
    j :| j < |lines'| && lines'[j] == lines[i];
  }

  lemma PermutedKeysDiffer(lines: seq<string>, lines': seq<string>)
    requires multiset(lines) == multiset(lines') && KeysDiffer(lines)
    ensures KeysDiffer(lines')
  {
    hide LineOf;
    forall i, j | 0 <= i < j < |lines'| && LineOf(lines'[i]).Pair? && LineOf(lines'[j]).Pair?
      ensures LineOf(lines'[i]).key != LineOf(lines'[j]).key
    {
      var a := SameElements(lines', lines, i);
      var b := SameElements(lines', lines, j);
      if lines'[i] == lines'[j] {
        Twice(lines', i, j);
        PairOccursOnce(lines, a);
      }
    }
  }

  lemma Twice(s: seq<string>, i: nat, j: nat)
    requires i < j < |s| && s[i] == s[j]
    ensures multiset(s)[s[i]] >= 2
  {
    assert s == s[..j] + [s[j]] + s[j + 1..];
    assert s[..j][i] == s[i] && multiset(s[..j])[s[i]] >= 1;
  }

  lemma PairOccursOnce(lines: seq<string>, a: nat)
    requires KeysDiffer(lines) && a < |lines| && LineOf(lines[a]).Pair?
    ensures multiset(lines)[lines[a]] == 1
  {
    hide LineOf;
    assert lines == lines[..a] + [lines[a]] + lines[a + 1..];
    forall x | x in lines[..a] ensures x != lines[a] {
      var k :| 0 <= k < a && lines[..a][k] == x;
      assert lines[k] == x;
    }
    var after := lines[a + 1..];
    forall x | x in after ensures x != lines[a] {
      var k :| 0 <= k < |after| && after[k] == x;
      assert lines[a + 1 + k] == x;
    }
  }

  lemma PermutedAcceptable(bytes: Bytes, lines: seq<string>, lines': seq<string>)
    requires multiset(lines) == multiset(lines') && Acceptable(bytes, lines) && StorageFirst(lines')
    ensures Acceptable(bytes, lines') && ToMap(lines) == ToMap(lines')
  {
    PermutedKeysDiffer(lines, lines');
    forall i: nat | i < |lines'| ensures LineOk(bytes, LineOf(lines'[i])) {
      var j := SameElements(lines', lines, i);
    }
    PermutedMap(bytes, lines, lines');
    PermutedMap(bytes, lines', lines);
  }

  lemma PermutedMap(bytes: Bytes, lines: seq<string>, lines': seq<string>)
    requires multiset(lines) == multiset(lines') && Acceptable(bytes, lines) && KeysDiffer(lines')
    ensures forall key | key in ToMap(lines) :: key in ToMap(lines') && ToMap(lines')[key] == ToMap(lines)[key]
  {
    forall key | key in ToMap(lines) ensures key in ToMap(lines') && ToMap(lines')[key] == ToMap(lines)[key] {
      var i := LineOfKey(bytes, lines, key);
      var j := SameElements(lines, lines', i);
      assert LineOk(bytes, LineOf(lines[i]));
      hide LineOf, KeyOf, ToMap;
      ValueOfLine(lines', j);
    }
  }

  /** Reordering the lines, with `storage.type` still before the other storage keys, changes
      neither whether the file is accepted nor the configuration. */
  lemma OrderDoesNotMatter(bytes: Bytes, lines: seq<string>, lines': seq<string>)
    requires multiset(lines) == multiset(lines') && StorageFirst(lines) && StorageFirst(lines')
    ensures ParseLines(bytes, lines).Fine? <==> ParseLines(bytes, lines').Fine?
    ensures ParseLines(bytes, lines).Fine? ==> ParseLines(bytes, lines').value == ParseLines(bytes, lines).value
  {
    ParseIsExact(bytes, lines);
    ParseIsExact(bytes, lines');
    if Acceptable(bytes, lines) {
      PermutedAcceptable(bytes, lines, lines');
    } else if Acceptable(bytes, lines') {
      PermutedAcceptable(bytes, lines', lines);
    }
  }

  // ---------------------------------------------------------------- formats

  const ALL_FORMATS_KEY := "*"

  /** What is configured under one key of `formats`. */
  function ListOf(cfg: Config, key: string): seq<string> {
    if key in cfg.formats then cfg.formats[key] else []
  }

  /** `get_formats`: the formats of this format, then those of all. */
  function GetFormats(cfg: Config, format: string): seq<string> {
    ListOf(cfg, format) + ListOf(cfg, ALL_FORMATS_KEY)
  }

  /** It repeats a format exactly if one of the two lists does or they overlap; no two saves of
      one size then write the same file exactly if it does not. */
  lemma FormatsRepeatIsExact(cfg: Config, format: string)
    ensures Sorting.Distinct(GetFormats(cfg, format)) <==>
      && Sorting.Distinct(ListOf(cfg, format)) && Sorting.Distinct(ListOf(cfg, ALL_FORMATS_KEY))
      && forall f :: !(f in ListOf(cfg, format) && f in ListOf(cfg, ALL_FORMATS_KEY))
  {
    DistinctConcat(ListOf(cfg, format), ListOf(cfg, ALL_FORMATS_KEY));
  }

  lemma DistinctConcat(a: seq<string>, b: seq<string>)
    ensures Sorting.Distinct(a + b) <==>
      Sorting.Distinct(a) && Sorting.Distinct(b) && forall f :: !(f in a && f in b)
  {
    var s := a + b;
    assert forall i | 0 <= i < |a| :: s[i] == a[i];
    assert forall i | 0 <= i < |b| :: s[|a| + i] == b[i];
    if Sorting.Distinct(s) {
      forall i, j | 0 <= i < j < |b| ensures b[i] != b[j] {
        assert s[|a| + i] != s[|a| + j];
      }
      forall f | f in a ensures f !in b {
        var i :| 0 <= i < |a| && a[i] == f;
        forall j | 0 <= j < |b| ensures b[j] != f {
          assert s[i] != s[|a| + j];
        }
      }
    }
    if Sorting.Distinct(a) && Sorting.Distinct(b) && forall f :: !(f in a && f in b) {
      forall i, j | 0 <= i < j < |s| ensures s[i] != s[j] {
        if i < |a| <= j {
          assert s[i] in a && s[j] == b[j - |a|];
        }
      }
    }
  }
}
