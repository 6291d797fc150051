/**
 * The rules of `ConfigManager` as functions of its settings: the defaults, the environment lookups and the
 * overrides built from them, validation, and the line-by-line reading of a configuration file. The
 * environment is a map from variable names to values; the file system is a map from the paths that can
 * be opened to their lines.
 */
module ConfigRules {
  import opened Wrappers
  import opened Text
  import opened Types

  type Environment = map<string, string>

  type Files = map<string, seq<string>>

  const DefaultConfigPath: string := "/app/config/config.json"

  /** The members of a `ConfigManager`: its four sections, the configuration file path and `loaded_`. */
  datatype Settings = Settings(server: ServerConfig, jack: JackConfig, logging: LoggingConfig, features: FeatureConfig,
                               configFilePath: string, loaded: bool)

  /** Every section at its defaults, with the given path and load flag. */
  function DefaultSettings(path: string, loaded: bool): Settings {
    Settings(DefaultServerConfig(), DefaultJackConfig(), DefaultLoggingConfig(), DefaultFeatureConfig(), path, loaded)
  }

  /** `loadDefaults`: every member of every section back to its default; the path and load flag stay. */
  function WithDefaults(st: Settings): (r: Settings)
    ensures r == DefaultSettings(st.configFilePath, st.loaded)
    ensures r.server.apiPort == DefaultApiPort && r.server.websocketPort == DefaultWsPort && r.jack.timeoutMs == DefaultTimeoutMs
  {
    st.(server := DefaultServerConfig(), jack := DefaultJackConfig(), logging := DefaultLoggingConfig(), features := DefaultFeatureConfig())
  }

  // ---------------------------------------------------------------------------------------------
  // getEnvVar, getEnvVarInt, getEnvVarBool

  function GetEnvVar(env: Environment, name: string, defaultValue: string): (r: string)
    ensures name in env ==> r == env[name]
    ensures name !in env ==> r == defaultValue
  {
    if name in env then env[name] else defaultValue
  }

  /** A set variable is read with `std::stoi`; one it cannot read (or that overflows) falls back to the default. */
  function GetEnvVarInt(env: Environment, name: string, defaultValue: CInt): (r: CInt)
    ensures name !in env ==> r == defaultValue
    ensures name in env && Stoi(env[name]).Failure? ==> r == defaultValue
    ensures name in env && Stoi(env[name]).Success? ==> r == Stoi(env[name]).value
  {
    if name !in env then defaultValue
    else
      match Stoi(env[name])
      case Success(v) => v
      case Failure(_) => defaultValue
  }

  /** A numeral followed by anything but a digit is read as its value: "12abc" sets 12. */
  lemma EnvIntReadsPrefix(env: Environment, name: string, defaultValue: CInt, n: nat, rest: string)
    requires name in env && env[name] == NatToDecimal(n) + rest
    requires n <= IntMax && (rest == [] || !IsDigit(rest[0]))
    ensures GetEnvVarInt(env, name, defaultValue) == n
  {
    StoiReadsNumeralPrefix(n, rest);
  }

  /** A value that does not start with a number, or one too large for an `int`, leaves the default. */
  lemma EnvIntFallsBack(env: Environment, name: string, defaultValue: CInt)
    requires name in env
    requires var t := DropSpaces(env[name]); t == [] || (!IsDigit(t[0]) && t[0] != '-' && t[0] != '+')
    ensures GetEnvVarInt(env, name, defaultValue) == defaultValue
  {
    StoiRejectsNonNumeric(env[name]);
  }

  lemma EnvIntOverflowFallsBack(env: Environment, name: string, defaultValue: CInt, n: nat)
    requires name in env && env[name] == NatToDecimal(n) && n > IntMax
    ensures GetEnvVarInt(env, name, defaultValue) == defaultValue
  {
    StoiRejectsOverflow(n);
  }

  /** A set variable is true exactly when it reads "true", "1" or "yes"; any other value, even "TRUE", is false. */
  function GetEnvVarBool(env: Environment, name: string, defaultValue: bool): (r: bool)
    ensures name !in env ==> r == defaultValue
    ensures name in env ==> (r <==> env[name] == "true" || env[name] == "1" || env[name] == "yes")
  {
    if name in env then
      var value := env[name];
      value == "true" || value == "1" || value == "yes"
    else defaultValue
  }

  // ---------------------------------------------------------------------------------------------
  // applyEnvironmentOverrides

  /**
   * `applyEnvironmentOverrides`: ten members may be replaced from the environment, each defaulting to its
   * current value; every other member is left as it is.
   */
  function EnvOverrides(st: Settings, env: Environment): (r: Settings)
    ensures r.server.apiPort == GetEnvVarInt(env, "JACK_BRIDGE_API_PORT", st.server.apiPort)
    ensures r.server.websocketPort == GetEnvVarInt(env, "JACK_BRIDGE_WS_PORT", st.server.websocketPort)
    ensures r.server.host == GetEnvVar(env, "JACK_BRIDGE_HOST", st.server.host)
    ensures r.jack.windowsHost == GetEnvVar(env, "JACK_SERVER_HOST", st.jack.windowsHost)
    ensures r.jack.toolsPath == GetEnvVar(env, "JACK_TOOLS_PATH", st.jack.toolsPath)
    ensures r.jack.timeoutMs == GetEnvVarInt(env, "JACK_TIMEOUT", st.jack.timeoutMs)
    ensures r.logging.level == GetEnvVar(env, "LOG_LEVEL", st.logging.level)
    ensures r.logging.filePath == GetEnvVar(env, "LOG_FILE_PATH", st.logging.filePath)
    ensures r.logging.fileEnabled == GetEnvVarBool(env, "LOG_FILE_ENABLED", st.logging.fileEnabled)
    ensures r.logging.consoleEnabled == GetEnvVarBool(env, "LOG_CONSOLE_ENABLED", st.logging.consoleEnabled)
    ensures r.server.(apiPort := st.server.apiPort, websocketPort := st.server.websocketPort, host := st.server.host) == st.server
    ensures r.jack.(windowsHost := st.jack.windowsHost, toolsPath := st.jack.toolsPath, timeoutMs := st.jack.timeoutMs) == st.jack
    ensures r.logging.(level := st.logging.level, filePath := st.logging.filePath, fileEnabled := st.logging.fileEnabled,
                       consoleEnabled := st.logging.consoleEnabled) == st.logging
    ensures r.features == st.features && r.configFilePath == st.configFilePath && r.loaded == st.loaded
  {
    var server := st.server.(
      apiPort := GetEnvVarInt(env, "JACK_BRIDGE_API_PORT", st.server.apiPort),
      websocketPort := GetEnvVarInt(env, "JACK_BRIDGE_WS_PORT", st.server.websocketPort),
      host := GetEnvVar(env, "JACK_BRIDGE_HOST", st.server.host));
    var jack := st.jack.(
      windowsHost := GetEnvVar(env, "JACK_SERVER_HOST", st.jack.windowsHost),
      toolsPath := GetEnvVar(env, "JACK_TOOLS_PATH", st.jack.toolsPath),
      timeoutMs := GetEnvVarInt(env, "JACK_TIMEOUT", st.jack.timeoutMs));
    var logging := st.logging.(
      level := GetEnvVar(env, "LOG_LEVEL", st.logging.level),
      filePath := GetEnvVar(env, "LOG_FILE_PATH", st.logging.filePath),
      fileEnabled := GetEnvVarBool(env, "LOG_FILE_ENABLED", st.logging.fileEnabled),
      consoleEnabled := GetEnvVarBool(env, "LOG_CONSOLE_ENABLED", st.logging.consoleEnabled));
    st.(server := server, jack := jack, logging := logging)
  }

  /** With none of the variables set, the overrides change nothing; applying them twice is applying them once. */
  lemma OverridesLaws(st: Settings, env: Environment)
    ensures EnvOverrides(st, map[]) == st
    ensures EnvOverrides(EnvOverrides(st, env), env) == EnvOverrides(st, env)
  {
  }

  // ---------------------------------------------------------------------------------------------
  // validate

  /** `validate`: both ports in 1..65535 and a positive timeout. */
  function Validate(st: Settings): (r: bool)
    ensures r <==> 1 <= st.server.apiPort <= 65535 && 1 <= st.server.websocketPort <= 65535 && st.jack.timeoutMs > 0
  {
    if st.server.apiPort < 1 || st.server.apiPort > 65535 then false
    else if st.server.websocketPort < 1 || st.server.websocketPort > 65535 then false
    else if st.jack.timeoutMs <= 0 then false
    else true
  }

  /** The defaults pass validation, whatever the path and load flag. */
  lemma DefaultsValidate(path: string, loaded: bool)
    ensures Validate(DefaultSettings(path, loaded))
  {
  }

  /** Nothing stops a setter from storing a port that validation then rejects. */
  lemma UncheckedPortFailsValidation(st: Settings, port: CInt)
    requires port < 1 || port > 65535
    ensures !Validate(st.(server := st.server.(apiPort := port)))
    ensures !Validate(st.(server := st.server.(websocketPort := port)))
  {
  }

  // ---------------------------------------------------------------------------------------------
  // Reading the configuration file

  /** The `api_port` read so far, and the exception `std::stoi` threw, if it did (which ends the reading). */
  datatype Scan = Scan(port: CInt, thrown: Option<StdException>)

  /**
   * One line of the file: a line mentioning `api_port` that has a ':' sets the port to `std::stoi` of the
   * text after the first ':'; any other line is skipped.
   */
  function ScanLine(sc: Scan, line: string): (r: Scan)
    ensures sc.thrown.Some? ==> r == sc
    ensures sc.thrown.None? && !Contains(line, "api_port") ==> r == sc
  {
    if sc.thrown.Some? || !Contains(line, "api_port") then sc
    else
      match Find(line, ":")
      case None => sc
      case Some(pos) =>
        match Stoi(line[pos + 1..])
        case Success(v) => Scan(v, None)
        case Failure(x) => Scan(sc.port, Some(x))
  }

  /** The lines of the file in order, from `start`. */
  function Scanned(start: Scan, lines: seq<string>): (r: Scan)
    ensures start.thrown.None? && r.thrown.Some? ==> exists i :: 0 <= i < |lines| && Contains(lines[i], "api_port")
    ensures r.thrown.None? ==> start.thrown.None?
    decreases |lines|
  {
    if lines == [] then start else ScanLine(Scanned(start, lines[..|lines| - 1]), lines[|lines| - 1])
  }

  lemma {:induction false} ScannedAppend(start: Scan, a: seq<string>, b: seq<string>)
    ensures Scanned(start, a + b) == Scanned(Scanned(start, a), b)
    decreases |b|
  {
    if b == [] {
      assert a + b == a;
    } else {
      assert (a + b)[..|a + b| - 1] == a + b[..|b| - 1];
      ScannedAppend(start, a, b[..|b| - 1]);
    }
  }

  /** Reading one more line is one more `ScanLine`. */
  lemma ScannedStep(start: Scan, lines: seq<string>, i: nat)
    requires i < |lines|
    ensures Scanned(start, lines[..i + 1]) == ScanLine(Scanned(start, lines[..i]), lines[i])
  {
    assert lines[..i + 1][..i] == lines[..i];
  }

  /** When line `i` throws, the lines after it do not change the outcome. */
  lemma ScannedStopsAt(start: Scan, lines: seq<string>, i: nat)
    requires i < |lines| && Scanned(start, lines[..i + 1]).thrown.Some?
    ensures Scanned(start, lines) == Scanned(start, lines[..i + 1])
  {
    ScannedAppend(start, lines[..i + 1], lines[i + 1..]);
    assert lines[..i + 1] + lines[i + 1..] == lines;
    ThrownSticks(Scanned(start, lines[..i + 1]), lines[i + 1..]);
  }

  /** Once `std::stoi` has thrown, no later line is read. */
  lemma {:induction false} ThrownSticks(start: Scan, lines: seq<string>)
    requires start.thrown.Some?
    ensures Scanned(start, lines) == start
    decreases |lines|
  {
    if lines != [] {
      ThrownSticks(start, lines[..|lines| - 1]);
    }
  }

  /** Lines that never mention `api_port` leave the port alone. */
  lemma {:induction false} OtherLinesIgnored(start: Scan, lines: seq<string>)
    requires forall i :: 0 <= i < |lines| ==> !Contains(lines[i], "api_port")
    ensures Scanned(start, lines) == start
    decreases |lines|
  {
    if lines != [] {
      var init := lines[..|lines| - 1];
      assert forall i :: 0 <= i < |init| ==> init[i] == lines[i];
      OtherLinesIgnored(start, init);
    }
  }

  /**
   * The last line that sets the port wins: after it, only lines that do not mention `api_port` follow, so the
   * port is the value that line holds.
   */
  lemma LastApiPortLineWins(start: Scan, pre: seq<string>, line: string, post: seq<string>)
    requires Scanned(start, pre).thrown.None?
    requires Contains(line, "api_port") && Find(line, ":").Some?
    requires Stoi(line[Find(line, ":").value + 1..]).Success?
    requires forall i :: 0 <= i < |post| ==> !Contains(post[i], "api_port")
    ensures Scanned(start, pre + [line] + post) == Scan(Stoi(line[Find(line, ":").value + 1..]).value, None)
  {
    ScannedAppend(start, pre + [line], post);
    ScannedAppend(start, pre, [line]);
    assert Scanned(Scanned(start, pre), [line]) == ScanLine(Scanned(start, pre), line) by {
      assert [line][..0] == [];
    }
    OtherLinesIgnored(Scanned(start, pre + [line]), post);
  }

  /** A line naming `api_port` whose text after the ':' is not a number makes `load` throw; the rest goes unread. */
  lemma BadApiPortLineThrows(start: Scan, pre: seq<string>, line: string, post: seq<string>)
    requires Scanned(start, pre).thrown.None?
    requires Contains(line, "api_port") && Find(line, ":").Some?
    requires Stoi(line[Find(line, ":").value + 1..]).Failure?
    ensures Scanned(start, pre + [line] + post) ==
      Scan(Scanned(start, pre).port, Some(Stoi(line[Find(line, ":").value + 1..]).error))
  {
    ScannedAppend(start, pre + [line], post);
    ScannedAppend(start, pre, [line]);
    assert Scanned(Scanned(start, pre), [line]) == ScanLine(Scanned(start, pre), line) by {
      assert [line][..0] == [];
    }
    ThrownSticks(Scanned(start, pre + [line]), post);
  }

  /** The reading of `"api_port": 7000,` and its like: a key, its first ':', then text `std::stoi` reads. */
  lemma ApiPortLineReads(sc: Scan, key: string, value: string)
    requires sc.thrown.None? && Contains(key, "api_port") && ':' !in key
    requires Stoi(value).Success?
    ensures ScanLine(sc, key + ":" + value) == Scan(Stoi(value).value, None)
  {
    var line := key + ":" + value;
    ContainsExtends(key, ":" + value, "api_port");
    assert line == key + (":" + value);
    SeparatorFoundAfterKey(key, value);
    assert line[|key| + 1..] == value;
  }

  /** Text containing a pattern still contains it with more text after it. */
  lemma ContainsExtends(s: string, tail: string, pat: string)
    requires Contains(s, pat)
    ensures Contains(s + tail, pat)
  {
    var k := Find(s, pat).value;
    assert (s + tail)[k..k + |pat|] == s[k..k + |pat|];
    assert OccursAt(s + tail, pat, k);
  }

  /** In `key:value` with no ':' in the key, the first ':' is the one after the key. */
  lemma SeparatorFoundAfterKey(key: string, value: string)
    requires ':' !in key
    ensures Find(key + ":" + value, ":") == Some(|key|)
  {
    var line := key + ":" + value;
    forall j | 0 <= j < |key| ensures !OccursAt(line, ":", j) {
      assert line[j..j + 1] == [key[j]];
    }
    assert line[|key|..|key| + 1] == ":";
    FindFirst(line, ":", |key|);
  }

  // ---------------------------------------------------------------------------------------------
  // load

  /** The file's lines read from the default port. */
  function FileScan(lines: seq<string>): Scan {
    Scanned(Scan(DefaultApiPort, None), lines)
  }

  /** Every section at its defaults but the API port, with the given path and load flag. */
  function DefaultsWithPort(path: string, loaded: bool, port: CInt): Settings {
    DefaultSettings(path, loaded).(server := DefaultServerConfig().(apiPort := port))
  }

  /**
   * `load(path)`: record the path and reset to the defaults; without a file, mark loaded and apply the
   * overrides; with one, read its lines, then mark loaded and apply the overrides. An unparseable port
   * throws, leaving the settings as far as they got and the load flag as it was.
   */
  function Load(st: Settings, path: string, env: Environment, files: Files): (r: (Settings, Result<bool, StdException>))
    ensures r.1.Success? ==> r.1.value && r.0.loaded && r.0.configFilePath == path
    ensures r.1.Success? ==> EnvOverrides(r.0, env) == r.0
    ensures path !in files ==> r == (EnvOverrides(DefaultSettings(path, true), env), Result.Success(true))
    ensures r.1.Failure? <==> path in files && FileScan(files[path]).thrown.Some?
    ensures path in files && FileScan(files[path]).thrown.None? ==>
      r == (EnvOverrides(DefaultsWithPort(path, true, FileScan(files[path]).port), env), Result.Success(true))
    ensures r.1.Failure? ==>
      r.0 == DefaultsWithPort(path, st.loaded, FileScan(files[path]).port) && Some(r.1.error) == FileScan(files[path]).thrown
  {
    var d := WithDefaults(st.(configFilePath := path));
    if path !in files then
      OverridesLaws(d.(loaded := true), env);
      (EnvOverrides(d.(loaded := true), env), Result.Success(true))
    else
      var sc := Scanned(Scan(d.server.apiPort, None), files[path]);
      var parsed := d.(server := d.server.(apiPort := sc.port));
      match sc.thrown
      case Some(x) => (parsed, Failure(x))
      case None =>
        OverridesLaws(parsed.(loaded := true), env);
        (EnvOverrides(parsed.(loaded := true), env), Result.Success(true))
  }

  /** A load that returns does not depend on what the settings were before: they are reset first. */
  lemma LoadResetsFirst(st1: Settings, st2: Settings, path: string, env: Environment, files: Files)
    requires Load(st1, path, env, files).1.Success?
    ensures Load(st1, path, env, files) == Load(st2, path, env, files)
  {
  }

  /** Without a file or the port variables, the port a load ends with is the one the file's last `api_port` line sets. */
  lemma LoadFileSetsPort(st: Settings, path: string, env: Environment, files: Files, pre: seq<string>, line: string, post: seq<string>)
    requires path in files && files[path] == pre + [line] + post
    requires "JACK_BRIDGE_API_PORT" !in env
    requires Scanned(Scan(DefaultApiPort, None), pre).thrown.None?
    requires Contains(line, "api_port") && Find(line, ":").Some? && Stoi(line[Find(line, ":").value + 1..]).Success?
    requires forall i :: 0 <= i < |post| ==> !Contains(post[i], "api_port")
    ensures Load(st, path, env, files).1 == Result.Success(true)
    ensures Load(st, path, env, files).0.server.apiPort == Stoi(line[Find(line, ":").value + 1..]).value
  {
    LastApiPortLineWins(Scan(DefaultApiPort, None), pre, line, post);
  }

  /** `createDefault`: the defaults at the default path, marked loaded. */
  function CreateDefault(): (r: Settings)
    ensures r.loaded && r.configFilePath == DefaultConfigPath && Validate(r)
    ensures r == WithDefaults(r)
  {
    DefaultSettings(DefaultConfigPath, true)
  }
}
