/** The configuration file: the fold of `config::parse` in src/config.hpp over the lines. */
module ConfigFold {
  import Text
  import opened Sizes
  import opened SizeText

  datatype Option<+V> = None | Some(value: V)

  datatype Dirs = Dirs(dataDir: string, tempDir: string)

  datatype Config = Config(
    listenHost: string,
    listenPort: nat,
    processingTimeout: nat,
    killTimeout: nat,
    threadPoolSize: Option<nat>,
    uploadLimit: nat,
    sizes: seq<SizeSpec>,
    formats: map<string, seq<string>>,
    authHeader: string,
    storage: Option<Dirs>)

  /** `parse_bytes`; nothing here depends on how it reads its text. Module ByteSizes is it. */
  type Bytes = string -> Option<nat>

  function Default(): Config {
    Config("127.0.0.1", 8000, 8, 10, None, 20 * 1024 * 1024, [], map[], "", None)
  }

  // ---------------------------------------------------------------- one line

  datatype Line = Blank | Broken | Pair(key: string, value: string)

  function LineOf(buf: string): Line {
    var line := Text.Strip(buf);
    if line == "" then Blank else
    match Text.Find(line, '=')
    case None => Broken
    case Some(pos) => Pair(line[..pos], line[pos + 1..])
  }

  const UINT := 0x1_0000_0000

  function ParseUnsigned(s: string, modulus: nat): Outcome<nat>
    requires modulus > 0
  {
    match Text.ParseInt(s)
    case Number(v) => Fine(v % modulus)
    case NotANumber(_) => Throws
  }

  predicate HasPrefix(key: string, prefix: string) {
    |key| >= 8 && key[..8] == prefix
  }

  /** The keys the chain of comparisons tells apart. */
  datatype Key =
    | ListenHost | ListenPort | ProcessingTimeout | KillTimeout | ThreadPoolSize | UploadLimit | AuthToken | SizeList
    | StorageType | StorageKey(name: string) | FormatKey(format: string) | Unknown

  function KeyOf(key: string): Key {
    if key == "listen_host" then ListenHost
    else if key == "listen_port" then ListenPort
    else if key == "processing_timeout_secs" then ProcessingTimeout
    else if key == "socket_kill_timeout_secs" then KillTimeout
    else if key == "thread_pool_size" then ThreadPoolSize
    else if key == "upload_limit" then UploadLimit
    else if key == "auth_token" then AuthToken
    else if key == "sizes" then SizeList
    else if key == "storage.type" then StorageType
    else if HasPrefix(key, "storage.") then StorageKey(key[8..])
    else if HasPrefix(key, "formats.") then FormatKey(key[8..])
    else Unknown
  }

  /** Different known keys are kept apart. */
  lemma KnownKeysDiffer(a: string, b: string)
    requires KeyOf(a) == KeyOf(b) && !KeyOf(a).Unknown?
    ensures a == b
  {
    if KeyOf(a).StorageKey? || KeyOf(a).FormatKey? {
      assert a == a[..8] + a[8..] && b == b[..8] + b[8..];
    }
  }

  /** What one pair does to the configuration. */
  function Assign(bytes: Bytes, cfg: Config, key: Key, value: string): Outcome<Config> {
    match key
    case ListenHost => Fine(cfg.(listenHost := value))
    case ListenPort =>
      (match ParseUnsigned(value, 65536)
       case Fine(v) => Fine(cfg.(listenPort := v))
       case _ => Throws)
    case ProcessingTimeout =>
      (match ParseUnsigned(value, UINT)
       case Fine(v) => Fine(cfg.(processingTimeout := v))
       case _ => Throws)
    case KillTimeout =>
      (match ParseUnsigned(value, UINT)
       case Fine(v) => Fine(cfg.(killTimeout := v))
       case _ => Throws)
    case ThreadPoolSize =>
      (match ParseUnsigned(value, UINT)
       case Fine(v) => Fine(cfg.(threadPoolSize := Some(v)))
       case _ => Throws)
    case UploadLimit =>
      (match bytes(value)
       case Some(v) => Fine(cfg.(uploadLimit := v))
       case None => Throws)
    case AuthToken => Fine(cfg.(authHeader := "Bearer " + value))
    case SizeList =>
      (match ParsePieces(Split(value))
       case Fine(specs) => Fine(cfg.(sizes := specs))
       case Throws => Throws
       case Undefined => Undefined)
    case StorageType => if value == "fs" then Fine(cfg.(storage := Some(Dirs("", "")))) else Throws
    case StorageKey(name) =>
      (match cfg.storage
       case None => Throws
       case Some(dirs) =>
         if name == "data_dir" then Fine(cfg.(storage := Some(dirs.(dataDir := value))))
         else if name == "temp_dir" then Fine(cfg.(storage := Some(dirs.(tempDir := value))))
         else Throws)
    case FormatKey(format) =>
      // the second throw, of a format that is already there, is proved not to be reached
      if Split(value) == [] || format in cfg.formats then Throws
      else Fine(cfg.(formats := cfg.formats[format := Split(value)]))
    case Unknown => Throws
  }

  // ---------------------------------------------------------------- all lines

  datatype Reading = Reading(cfg: Config, seen: set<string>)

  function ReadLine(bytes: Bytes, r: Reading, buf: string): Outcome<Reading> {
    match LineOf(buf)
    case Blank => Fine(r)
    case Broken => Throws
    case Pair(key, value) =>
      if key in r.seen then Throws else
      match Assign(bytes, r.cfg, KeyOf(key), value)
      case Fine(cfg) => Fine(Reading(cfg, r.seen + {key}))
      case Throws => Throws
      case Undefined => Undefined
  }

  function ReadLines(bytes: Bytes, lines: seq<string>): Outcome<Reading> {
    if lines == [] then Fine(Reading(Default(), {})) else
    match ReadLines(bytes, lines[..|lines| - 1])
    case Fine(r) => ReadLine(bytes, r, lines[|lines| - 1])
    case Throws => Throws
    case Undefined => Undefined
  }

  /** The checks after the last line. */
  predicate Complete(cfg: Config) {
    && cfg.sizes != [] && cfg.formats != map[] && cfg.storage.Some?
    && cfg.storage.value.dataDir != "" && cfg.storage.value.tempDir != ""
    && cfg.killTimeout > cfg.processingTimeout && cfg.processingTimeout != 0
  }

  function ParseLines(bytes: Bytes, lines: seq<string>): Outcome<Config> {
    match ReadLines(bytes, lines)
    case Fine(r) => if Complete(r.cfg) then Fine(r.cfg) else Throws
    case Throws => Throws
    case Undefined => Undefined
  }

  lemma {:induction false} ReadingStops(bytes: Bytes, lines: seq<string>, n: nat)
    requires n <= |lines| && !ReadLines(bytes, lines[..n]).Fine?
    ensures ReadLines(bytes, lines) == ReadLines(bytes, lines[..n])
    decreases |lines|
  {
    if n == |lines| {
      assert lines[..n] == lines;
    } else {
      assert lines[..|lines| - 1][..n] == lines[..n];
      ReadingStops(bytes, lines[..|lines| - 1], n);
    }
  }

  /** `config::parse`, on the lines of the file. */
  method Parse(bytes: Bytes, lines: seq<string>) returns (result: Outcome<Config>)
    ensures result == ParseLines(bytes, lines)
  {
    var cfg, seen, i := Default(), {}, 0;
    while i < |lines|
      invariant 0 <= i <= |lines| && ReadLines(bytes, lines[..i]) == Fine(Reading(cfg, seen))
    {
      ghost var before := Reading(cfg, seen);
      assert lines[..i + 1][..i] == lines[..i];
      var line := Text.RemoveCommentAndTrailingWhitespace(lines[i]);
      if line != "" {
        var pos := Text.Find(line, '=');
        if pos.None? {
          ReadingStops(bytes, lines, i + 1);
          return Throws;
        }
        var key, value := line[..pos.value], line[pos.value + 1..];
        if key in seen {
          ReadingStops(bytes, lines, i + 1);
          return Throws;
        }
        seen := seen + {key};
        var outcome := Assign(bytes, cfg, KeyOf(key), value);
        if !outcome.Fine? {
          ReadingStops(bytes, lines, i + 1);
          return if outcome.Throws? then Throws else Undefined;
        }
        cfg := outcome.value;
      }
      i := i + 1;
    }
    assert lines[..i] == lines;
    result := if Complete(cfg) then Fine(cfg) else Throws;
  }
}
