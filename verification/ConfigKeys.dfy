/** What each line of a configuration file sets, key by key: the field of every key, its default if
    no line has the key, and the keys and values that are accepted at all. */
module ConfigKeys {
  import Text
  import Sizes
  import opened SizeText
  import opened ConfigFold
  import opened ConfigTheorems
  import opened ConfigFiles

  /** How a line is read: nothing but blanks and a comment, something without a `=`, or a key up to
      the first `=` and a value behind it. */
  lemma LineIsExact(buf: string)
    ensures LineOf(buf).Blank? <==> Text.IsStripped(buf, "")
    ensures LineOf(buf).Broken? <==> exists line :: Text.IsStripped(buf, line) && line != "" && '=' !in line
    ensures LineOf(buf).Pair? ==>
      '=' !in LineOf(buf).key && Text.IsStripped(buf, LineOf(buf).key + "=" + LineOf(buf).value)
  {
    Text.StripIsStripped(buf);
    forall line | Text.IsStripped(buf, line) ensures line == Text.Strip(buf) {
      Text.StrippedIsUnique(buf, line, Text.Strip(buf));
    }
    var line := Text.Strip(buf);
    if LineOf(buf).Pair? {
      var pos := Text.Find(line, '=').value;
      assert line == line[..pos] + "=" + line[pos + 1..];
    }
    hide Text.IsStripped, Text.Strip;
  }

  /** Some line sets `key` to `value`. */
  ghost predicate Sets(lines: seq<string>, key: string, value: string) {
    exists i: nat :: i < |lines| && LineOf(lines[i]) == Pair(key, value)
  }

  ghost predicate Mentions(lines: seq<string>, key: string) {
    exists i: nat :: i < |lines| && LineOf(lines[i]).Pair? && LineOf(lines[i]).key == key
  }

  lemma WrittenIsSet(lines: seq<string>, key: string, value: string)
    requires key + "=" + value in lines && IsPlainKey(key) && IsPlain(value)
    ensures Sets(lines, key, value)
  {
    PairComesBack(key, value);
    var i: nat :| i < |lines| && lines[i] == key + "=" + value;
    hide LineOf;
  }

  lemma SettingOf(bytes: Bytes, lines: seq<string>, key: string, value: string)
    requires ParseLines(bytes, lines).Fine? && Sets(lines, key, value)
    ensures IsValid(bytes, KeyOf(key), value) && KeyOf(key) in ToMap(lines) && ToMap(lines)[KeyOf(key)] == value
  {
    hide LineOf, KeyOf, ToMap, ParseLines, FromMap, Complete, StorageFirst;
    ParseIsExact(bytes, lines);
    var i: nat :| i < |lines| && LineOf(lines[i]) == Pair(key, value);
    assert LineOk(bytes, LineOf(lines[i]));
    ValueOfLine(lines, i);
  }

  lemma NoSettingOf(lines: seq<string>, key: string)
    requires !Mentions(lines, key) && !KeyOf(key).Unknown?
    ensures KeyOf(key) !in ToMap(lines)
  {
    ToMapKeys(lines);
    hide LineOf, KeyOf, ToMap;
    if HasKey(lines, KeyOf(key)) {
      var i: nat :| i < |lines| && LineOf(lines[i]).Pair? && KeyOf(LineOf(lines[i]).key) == KeyOf(key);
      KnownKeysDiffer(LineOf(lines[i]).key, key);
    }
  }

  // ---------------------------------------------------------------- what a key sets

  function ConfigOf(bytes: Bytes, lines: seq<string>): Config
    requires ParseLines(bytes, lines).Fine?
  {
    ParseLines(bytes, lines).value
  }

  lemma NumbersAreRead(n: nat)
    requires n <= Text.INT_MAX
    ensures ParseUnsigned(Text.Print(n), UINT) == Fine(n) && ParseUnsigned(Text.Print(n), 65536) == Fine(n % 65536)
  {
    hide Text.ParseInt, Text.Print;
    assert Text.Print(n) + "" == Text.Print(n);
    Text.PrintedNumberComesBack(n, "");
  }

  lemma PrintIsPlain(n: nat)
    ensures IsPlain(Text.Print(n))
  {
    PrintHas(n, '#');
    PrintHas(n, ' ');
  }

  lemma NumberKeys()
    ensures KeyOf("processing_timeout_secs") == ProcessingTimeout && KeyOf("socket_kill_timeout_secs") == KillTimeout
    ensures KeyOf("thread_pool_size") == ThreadPoolSize && KeyOf("listen_port") == ListenPort
  {
  }

  lemma TimeoutKeysArePlain()
    ensures IsPlainKey("processing_timeout_secs") && IsPlainKey("socket_kill_timeout_secs")
  {
    assert '#' !in "processing_timeout_secs";
    assert '=' !in "processing_timeout_secs";
    assert '#' !in "socket_kill_timeout_secs";
    assert '=' !in "socket_kill_timeout_secs";
  }

  lemma OtherNumberKeysArePlain()
    ensures IsPlainKey("thread_pool_size") && IsPlainKey("listen_port")
  {
  }

  lemma TextKeys()
    ensures KeyOf("listen_host") == ListenHost && KeyOf("upload_limit") == UploadLimit && KeyOf("auth_token") == AuthToken
    ensures KeyOf("sizes") == SizeList && KeyOf("storage.type") == StorageType
    ensures KeyOf("storage.data_dir") == StorageKey("data_dir") && KeyOf("storage.temp_dir") == StorageKey("temp_dir")
  {
    OtherKeysAre();
    PlainTextKeys();
    hide KeyOf;
  }

  lemma PlainTextKeys()
    ensures KeyOf("listen_host") == ListenHost && KeyOf("upload_limit") == UploadLimit && KeyOf("auth_token") == AuthToken
  {
  }

  lemma PrintedSetting(bytes: Bytes, lines: seq<string>, key: string, n: nat)
    requires ParseLines(bytes, lines).Fine? && key + "=" + Text.Print(n) in lines && IsPlainKey(key)
    ensures KeyOf(key) in ToMap(lines) && ToMap(lines)[KeyOf(key)] == Text.Print(n)
  {
    hide ParseLines, KeyOf, ToMap, Sets, IsPlain, IsPlainKey;
    PrintIsPlain(n);
    WrittenIsSet(lines, key, Text.Print(n));
    SettingOf(bytes, lines, key, Text.Print(n));
  }

  /** The numbers, whatever else the file says. A port loses its upper bits. */
  lemma PrintedNumbersAreSet(bytes: Bytes, lines: seq<string>, n: nat)
    requires ParseLines(bytes, lines).Fine? && n <= Text.INT_MAX
    ensures var cfg := ConfigOf(bytes, lines);
      && ("processing_timeout_secs=" + Text.Print(n) in lines ==> cfg.processingTimeout == n)
      && ("socket_kill_timeout_secs=" + Text.Print(n) in lines ==> cfg.killTimeout == n)
      && ("thread_pool_size=" + Text.Print(n) in lines ==> cfg.threadPoolSize == Some(n))
      && ("listen_port=" + Text.Print(n) in lines ==> cfg.listenPort == n % 65536)
  {
    hide KeyOf, ToMap, ParseUnsigned, FormatsOf, SpecsOf, LimitOf, HeaderOf, StorageOf, TextOf, ParseLines, IsPlainKey;
    ParseIsExact(bytes, lines);
    NumberKeys();
    TimeoutKeysArePlain();
    OtherNumberKeysArePlain();
    NumbersAreRead(n);
    var m := ToMap(lines);
    var p, k, t, l := "processing_timeout_secs", "socket_kill_timeout_secs", "thread_pool_size", "listen_port";
    assert p + "=" == "processing_timeout_secs=" && k + "=" == "socket_kill_timeout_secs=";
    assert t + "=" == "thread_pool_size=" && l + "=" == "listen_port=";
    if p + "=" + Text.Print(n) in lines { PrintedSetting(bytes, lines, p, n); }
    if k + "=" + Text.Print(n) in lines { PrintedSetting(bytes, lines, k, n); }
    if t + "=" + Text.Print(n) in lines { PrintedSetting(bytes, lines, t, n); }
    if l + "=" + Text.Print(n) in lines { PrintedSetting(bytes, lines, l, n); }
  }

  /** The texts, as they stand in the file. */
  lemma TextsAreSet(bytes: Bytes, lines: seq<string>, value: string)
    requires ParseLines(bytes, lines).Fine?
    ensures var cfg := ConfigOf(bytes, lines);
      && (Sets(lines, "listen_host", value) ==> cfg.listenHost == value)
      && (Sets(lines, "auth_token", value) ==> cfg.authHeader == "Bearer " + value)
      && (Sets(lines, "upload_limit", value) ==> bytes(value) == Some(cfg.uploadLimit))
      && (Sets(lines, "sizes", value) ==> ParsePieces(Split(value)) == Fine(cfg.sizes))
      && (Sets(lines, "storage.type", value) ==> value == "fs")
      && cfg.storage.Some?
      && (Sets(lines, "storage.data_dir", value) ==> cfg.storage.value.dataDir == value)
      && (Sets(lines, "storage.temp_dir", value) ==> cfg.storage.value.tempDir == value)
  {
    hide KeyOf, ToMap, FormatsOf, NumberOf, PoolSizeOf, ParsePieces, Split, ParseLines, Sets, Acceptable;
    ParseIsExact(bytes, lines);
    TextKeys();
    if Sets(lines, "listen_host", value) { SettingOf(bytes, lines, "listen_host", value); }
    if Sets(lines, "auth_token", value) { SettingOf(bytes, lines, "auth_token", value); }
    if Sets(lines, "upload_limit", value) { SettingOf(bytes, lines, "upload_limit", value); }
    if Sets(lines, "sizes", value) { SettingOf(bytes, lines, "sizes", value); }
    if Sets(lines, "storage.type", value) { SettingOf(bytes, lines, "storage.type", value); }
    if Sets(lines, "storage.data_dir", value) { SettingOf(bytes, lines, "storage.data_dir", value); }
    if Sets(lines, "storage.temp_dir", value) { SettingOf(bytes, lines, "storage.temp_dir", value); }
  }

  /** The lists of formats: the pieces of the value, under the text behind `formats.`; and no list
      that no line sets. */
  lemma FormatsAreSet(bytes: Bytes, lines: seq<string>, format: string, value: string)
    requires ParseLines(bytes, lines).Fine?
    ensures var cfg := ConfigOf(bytes, lines);
      && (Sets(lines, "formats." + format, value) ==> format in cfg.formats && cfg.formats[format] == Split(value))
      && (!Mentions(lines, "formats." + format) ==> format !in cfg.formats)
  {
    hide KeyOf, ToMap, FormatsOf, NumberOf, PoolSizeOf, ParsePieces, Split, ParseLines, Sets, Mentions, Acceptable;
    ParseIsExact(bytes, lines);
    FormatKeyIs(format);
    InFormats(ToMap(lines), format);
    if Sets(lines, "formats." + format, value) { SettingOf(bytes, lines, "formats." + format, value); }
    if !Mentions(lines, "formats." + format) { NoSettingOf(lines, "formats." + format); }
  }

  /** What `get_formats` returns for a format, for each of the ways in which a file can speak of it. */
  lemma GetFormatsOfFile(bytes: Bytes, lines: seq<string>, format: string, own: string, all: string)
    requires ParseLines(bytes, lines).Fine?
    ensures var formats := GetFormats(ConfigOf(bytes, lines), format);
      && (Sets(lines, "formats." + format, own) && Sets(lines, "formats.*", all) ==> formats == Split(own) + Split(all))
      && (Sets(lines, "formats." + format, own) && !Mentions(lines, "formats.*") ==> formats == Split(own))
      && (!Mentions(lines, "formats." + format) && Sets(lines, "formats.*", all) ==> formats == Split(all))
      && (!Mentions(lines, "formats." + format) && !Mentions(lines, "formats.*") ==> formats == [])
  {
    hide Split, ParseLines, Sets, Mentions;
    assert "formats." + "*" == "formats.*";
    FormatsAreSet(bytes, lines, format, own);
    FormatsAreSet(bytes, lines, "*", all);
  }

  /** Everything has its default as long as no line sets it. */
  lemma DefaultsApply(bytes: Bytes, lines: seq<string>)
    requires ParseLines(bytes, lines).Fine?
    ensures var cfg := ConfigOf(bytes, lines);
      && (!Mentions(lines, "listen_host") ==> cfg.listenHost == "127.0.0.1")
      && (!Mentions(lines, "listen_port") ==> cfg.listenPort == 8000)
      && (!Mentions(lines, "processing_timeout_secs") ==> cfg.processingTimeout == 8)
      && (!Mentions(lines, "socket_kill_timeout_secs") ==> cfg.killTimeout == 10)
      && (!Mentions(lines, "thread_pool_size") ==> cfg.threadPoolSize == None)
      && (!Mentions(lines, "upload_limit") ==> cfg.uploadLimit == 20971520)
      && (!Mentions(lines, "auth_token") ==> cfg.authHeader == "")
  {
    hide KeyOf, ToMap, FormatsOf, SpecsOf, StorageOf, ParseLines, Mentions, Acceptable;
    ParseIsExact(bytes, lines);
    TextKeys();
    NumberKeys();
    if !Mentions(lines, "listen_host") { NoSettingOf(lines, "listen_host"); }
    if !Mentions(lines, "listen_port") { NoSettingOf(lines, "listen_port"); }
    if !Mentions(lines, "processing_timeout_secs") { NoSettingOf(lines, "processing_timeout_secs"); }
    if !Mentions(lines, "socket_kill_timeout_secs") { NoSettingOf(lines, "socket_kill_timeout_secs"); }
    if !Mentions(lines, "thread_pool_size") { NoSettingOf(lines, "thread_pool_size"); }
    if !Mentions(lines, "upload_limit") { NoSettingOf(lines, "upload_limit"); }
    if !Mentions(lines, "auth_token") { NoSettingOf(lines, "auth_token"); }
  }

  // ---------------------------------------------------------------- what is refused

  const NUMBER_KEYS := {"listen_port", "processing_timeout_secs", "socket_kill_timeout_secs", "thread_pool_size"}

  const OTHER_KEYS := {
    "listen_host", "upload_limit", "auth_token", "sizes", "storage.type", "storage.data_dir", "storage.temp_dir"}

  lemma KnownKeysAre(bytes: Bytes, key: string, value: string)
    requires IsValid(bytes, KeyOf(key), value)
    ensures key in NUMBER_KEYS || key in OTHER_KEYS || (|key| >= 8 && key[..8] == "formats.")
    ensures key in NUMBER_KEYS ==> Text.ParseInt(value).Number?
  {
    hide Split, ParsePieces, Text.ParseInt;
    assert KeyOf(key).StorageKey? ==> key == key[..8] + key[8..];
    assert "storage." + "data_dir" == "storage.data_dir" && "storage." + "temp_dir" == "storage.temp_dir";
  }

  /** An accepted file has no key but the documented ones, and a number wherever one is due. */
  lemma AcceptedKeysAreKnown(bytes: Bytes, lines: seq<string>, key: string, value: string)
    requires ParseLines(bytes, lines).Fine? && Sets(lines, key, value)
    ensures key in NUMBER_KEYS || key in OTHER_KEYS || (|key| >= 8 && key[..8] == "formats.")
    ensures key in NUMBER_KEYS ==> Text.ParseInt(value).Number?
  {
    hide *;
    SettingOf(bytes, lines, key, value);
    KnownKeysAre(bytes, key, value);
  }

  /** No key is set twice, and the directories come after the line that says they are directories. */
  lemma AcceptedInOrder(bytes: Bytes, lines: seq<string>)
    requires ParseLines(bytes, lines).Fine?
    ensures forall i: nat, j: nat | i < j < |lines| && LineOf(lines[i]).Pair? && LineOf(lines[j]).Pair? ::
              LineOf(lines[i]).key != LineOf(lines[j]).key
    ensures forall j: nat | j < |lines| && LineOf(lines[j]).Pair?
                && (LineOf(lines[j]).key == "storage.data_dir" || LineOf(lines[j]).key == "storage.temp_dir") ::
              exists i: nat :: i < j && LineOf(lines[i]) == Pair("storage.type", "fs")
    ensures forall i: nat | i < |lines| :: !LineOf(lines[i]).Broken?
  {
    hide LineOf, KeyOf, ParseLines, FromMap, ToMap, Complete;
    ParseIsExact(bytes, lines);
    TextKeys();
    assert forall i: nat | i < |lines| :: LineOk(bytes, LineOf(lines[i]));
    forall j: nat | j < |lines| && LineOf(lines[j]).Pair?
                && (LineOf(lines[j]).key == "storage.data_dir" || LineOf(lines[j]).key == "storage.temp_dir")
      ensures exists i: nat :: i < j && LineOf(lines[i]) == Pair("storage.type", "fs")
    {
      var i: nat :| i < j && LineOf(lines[..j][i]).Pair? && KeyOf(LineOf(lines[..j][i]).key) == StorageType;
      assert lines[..j][i] == lines[i] && LineOk(bytes, LineOf(lines[i]));
      KnownKeysDiffer(LineOf(lines[i]).key, "storage.type");
    }
  }

  // ---------------------------------------------------------------- the two timeouts

  /** A complete file with the two timeouts written out. */
  function FileWith(format: string, own: seq<string>, all: seq<string>, processing: nat, kill: nat): seq<string> {
    FileFor(format, own, all)
      + ["processing_timeout_secs=" + Text.Print(processing)] + ["socket_kill_timeout_secs=" + Text.Print(kill)]
  }

  lemma NumberIsValid(bytes: Bytes, n: nat)
    requires n <= Text.INT_MAX
    ensures IsValid(bytes, ProcessingTimeout, Text.Print(n)) && IsValid(bytes, KillTimeout, Text.Print(n))
  {
    hide Text.ParseInt, Text.Print;
    assert Text.Print(n) + "" == Text.Print(n);
    Text.PrintedNumberComesBack(n, "");
  }

  /** A line with a number behind acceptable ones. */
  lemma AddNumber(bytes: Bytes, before: seq<string>, key: string, n: nat)
    requires Acceptable(bytes, before) && n <= Text.INT_MAX && IsPlainKey(key)
    requires KeyOf(key) == ProcessingTimeout || KeyOf(key) == KillTimeout
    requires !HasKey(before, KeyOf(key))
    ensures var lines := before + [key + "=" + Text.Print(n)];
      Acceptable(bytes, lines) && ToMap(lines) == ToMap(before)[KeyOf(key) := Text.Print(n)]
  {
    var lines := before + [key + "=" + Text.Print(n)];
    assert lines[..|lines| - 1] == before;
    hide LineOf, KeyOf, IsValid, Acceptable, IsPlain, IsPlainKey, Text.Print;
    PrintIsPlain(n);
    NumberIsValid(bytes, n);
    PairComesBack(key, Text.Print(n));
    KeysAre(before);
    AcceptableAfter(bytes, lines);
  }

  lemma FileMentionsNoTimeout(bytes: Bytes, format: string, own: seq<string>, all: seq<string>)
    requires IsPlainKey(format) && IsPlainList(own) && IsPlainList(all) && format != "*"
    ensures Acceptable(bytes, FileFor(format, own, all))
    ensures !HasKey(FileFor(format, own, all), ProcessingTimeout) && !HasKey(FileFor(format, own, all), KillTimeout)
  {
    hide *;
    FileIsAcceptable(bytes, format, own, all);
    NoOtherSetting(bytes, format, own, all);
    ToMapKeys(FileFor(format, own, all));
  }

  lemma OneMoreKey(lines: seq<string>, line: string, key: Key)
    requires LineOf(line).Pair? && KeyOf(LineOf(line).key) != key && !HasKey(lines, key)
    ensures !HasKey(lines + [line], key)
  {
    hide LineOf, KeyOf;
    var longer := lines + [line];
    assert forall i | 0 <= i < |lines| :: longer[i] == lines[i];
  }

  lemma FileWithIsAcceptable(bytes: Bytes, format: string, own: seq<string>, all: seq<string>, processing: nat, kill: nat)
    requires IsPlainKey(format) && IsPlainList(own) && IsPlainList(all) && format != "*"
    requires processing <= Text.INT_MAX && kill <= Text.INT_MAX
    ensures Acceptable(bytes, FileWith(format, own, all, processing, kill))
    ensures ToMap(FileWith(format, own, all, processing, kill))
         == ToMap(FileFor(format, own, all))[ProcessingTimeout := Text.Print(processing)][KillTimeout := Text.Print(kill)]
  {
    hide LineOf, KeyOf, Acceptable, HasKey, ToMap, FileFor, IsPlain, IsPlainKey, IsPlainList, Text.Print;
    var file, p, k := FileFor(format, own, all), "processing_timeout_secs", "socket_kill_timeout_secs";
    NumberKeys();
    TimeoutKeysArePlain();
    FileMentionsNoTimeout(bytes, format, own, all);
    assert p + "=" == "processing_timeout_secs=" && k + "=" == "socket_kill_timeout_secs=";
    AddNumber(bytes, file, p, processing);
    PrintIsPlain(processing);
    PairComesBack(p, Text.Print(processing));
    OneMoreKey(file, p + "=" + Text.Print(processing), KillTimeout);
    AddNumber(bytes, file + [p + "=" + Text.Print(processing)], k, kill);
  }

  /** Which timeouts are accepted: exactly those that leave the processing some time and the socket
      more. */
  lemma TimeoutsAreExact(bytes: Bytes, format: string, own: seq<string>, all: seq<string>, processing: nat, kill: nat)
    requires IsPlainKey(format) && IsPlainList(own) && IsPlainList(all) && format != "*"
    requires processing <= Text.INT_MAX && kill <= Text.INT_MAX
    ensures ParseLines(bytes, FileWith(format, own, all, processing, kill)).Fine? <==> 0 < processing < kill
  {
    var lines := FileWith(format, own, all, processing, kill);
    var m := ToMap(FileFor(format, own, all));
    if ParseLines(bytes, lines).Fine? {
      assert lines[6] == "processing_timeout_secs=" + Text.Print(processing);
      assert lines[7] == "socket_kill_timeout_secs=" + Text.Print(kill);
      hide *;
      PrintedNumbersAreSet(bytes, lines, processing);
      PrintedNumbersAreSet(bytes, lines, kill);
      AcceptedIsComplete(bytes, lines);
    } else {
      hide *;
      FileWithIsAcceptable(bytes, format, own, all, processing, kill);
      ParseIsExact(bytes, lines);
      if 0 < processing < kill { WrittenIsComplete(bytes, format, own, all, processing, kill); }
    }
  }

  lemma WrittenIsComplete(bytes: Bytes, format: string, own: seq<string>, all: seq<string>, processing: nat, kill: nat)
    requires IsPlainKey(format) && IsPlainList(own) && IsPlainList(all) && format != "*"
    requires 0 < processing < kill <= Text.INT_MAX
    ensures Complete(FromMap(bytes, ToMap(FileFor(format, own, all))[ProcessingTimeout := Text.Print(processing)]
                                                                     [KillTimeout := Text.Print(kill)]))
  {
    hide IsPlainList, IsPlainKey, Split, Join, ToMap, FileFor, ParsePieces, Text.Print, Complete, FromMap, FormatsOf, ParseUnsigned;
    var m := ToMap(FileFor(format, own, all));
    SettingIs(bytes, format, own, all, 0);
    SettingIs(bytes, format, own, all, 1);
    SettingIs(bytes, format, own, all, 3);
    SettingIs(bytes, format, own, all, 4);
    SettingIs(bytes, format, own, all, 5);
    SizesComeBack();
    NumbersAreRead(processing);
    NumbersAreRead(kill);
    SettingsAreComplete(bytes, m[ProcessingTimeout := Text.Print(processing)][KillTimeout := Text.Print(kill)], format);
  }
}
