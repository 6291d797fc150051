/**
 * `ConfigManager` as a class with its six members. Each method's new state is stated through `Snapshot()`
 * against the functions of `ConfigRules`, where the properties of loading, overriding and validating are
 * proved.
 */
module ConfigManagement {
  import opened Wrappers
  import opened Text
  import opened Types
  import ConfigRules

  class ConfigManager {
    var server: ServerConfig
    var jack: JackConfig
    var logging: LoggingConfig
    var features: FeatureConfig
    var configFilePath: string
    var loaded: bool

    function Snapshot(): ConfigRules.Settings
      reads this
    {
      ConfigRules.Settings(server, jack, logging, features, configFilePath, loaded)
    }

    /** `ConfigManager()`: the defaults, the default path, not loaded. */
    constructor()
      ensures Snapshot() == ConfigRules.DefaultSettings(ConfigRules.DefaultConfigPath, false)
      ensures ConfigRules.Validate(Snapshot())
    {
      server := DefaultServerConfig();
      jack := DefaultJackConfig();
      logging := DefaultLoggingConfig();
      features := DefaultFeatureConfig();
      configFilePath := ConfigRules.DefaultConfigPath;
      loaded := false;
    }

    /** `ConfigManager(config_file)`: the defaults, the given path, not loaded. */
    constructor WithFile(configFile: string)
      ensures Snapshot() == ConfigRules.DefaultSettings(configFile, false)
      ensures ConfigRules.Validate(Snapshot())
    {
      server := DefaultServerConfig();
      jack := DefaultJackConfig();
      logging := DefaultLoggingConfig();
      features := DefaultFeatureConfig();
      configFilePath := configFile;
      loaded := false;
    }

    /** `createDefault`: a fresh manager at the defaults, marked loaded. */
    static method CreateDefault() returns (config: ConfigManager)
      ensures fresh(config) && config.Snapshot() == ConfigRules.CreateDefault()
    {
      config := new ConfigManager();
      config.LoadDefaults();
      config.loaded := true;
    }

    method LoadDefaults()
      modifies this
      ensures Snapshot() == ConfigRules.WithDefaults(old(Snapshot()))
    {
      server := DefaultServerConfig();
      jack := DefaultJackConfig();
      logging := DefaultLoggingConfig();
      features := DefaultFeatureConfig();
    }

    method ApplyEnvironmentOverrides(env: ConfigRules.Environment)
      modifies this
      ensures Snapshot() == ConfigRules.EnvOverrides(old(Snapshot()), env)
    {
      server := server.(apiPort := ConfigRules.GetEnvVarInt(env, "JACK_BRIDGE_API_PORT", server.apiPort));
      server := server.(websocketPort := ConfigRules.GetEnvVarInt(env, "JACK_BRIDGE_WS_PORT", server.websocketPort));
      server := server.(host := ConfigRules.GetEnvVar(env, "JACK_BRIDGE_HOST", server.host));
      jack := jack.(windowsHost := ConfigRules.GetEnvVar(env, "JACK_SERVER_HOST", jack.windowsHost));
      jack := jack.(toolsPath := ConfigRules.GetEnvVar(env, "JACK_TOOLS_PATH", jack.toolsPath));
      jack := jack.(timeoutMs := ConfigRules.GetEnvVarInt(env, "JACK_TIMEOUT", jack.timeoutMs));
      logging := logging.(level := ConfigRules.GetEnvVar(env, "LOG_LEVEL", logging.level));
      logging := logging.(filePath := ConfigRules.GetEnvVar(env, "LOG_FILE_PATH", logging.filePath));
      logging := logging.(fileEnabled := ConfigRules.GetEnvVarBool(env, "LOG_FILE_ENABLED", logging.fileEnabled));
      logging := logging.(consoleEnabled := ConfigRules.GetEnvVarBool(env, "LOG_CONSOLE_ENABLED", logging.consoleEnabled));
    }

    /**
     * `load(config_file)`: the file is read line by line; a `Failure` is the exception `std::stoi` throws
     * out of `load`, with the members as far as the reading got.
     */
    method LoadFrom(path: string, env: ConfigRules.Environment, files: ConfigRules.Files) returns (r: Result<bool, StdException>)
      modifies this
      ensures (Snapshot(), r) == ConfigRules.Load(old(Snapshot()), path, env, files)
    {
      configFilePath := path;
      LoadDefaults();
      if path !in files {
        loaded := true;
        ApplyEnvironmentOverrides(env);
        return Result.Success(true);
      }
      var sc := ReadApiPort(files[path], server.apiPort);
      server := server.(apiPort := sc.port);
      match sc.thrown
      case Some(x) =>
        return Failure(x);
      case None =>
        loaded := true;
        ApplyEnvironmentOverrides(env);
        return Result.Success(true);
    }

    /** The `getline` loop of `load`: the port after the lines, or the exception that ended the loop. */
    static method ReadApiPort(lines: seq<string>, port: CInt) returns (sc: ConfigRules.Scan)
      ensures sc == ConfigRules.Scanned(ConfigRules.Scan(port, None), lines)
    {
      ghost var start := ConfigRules.Scan(port, None);
      var p: CInt := port;
      var i := 0;
      while i < |lines|
        invariant 0 <= i <= |lines|
        invariant ConfigRules.Scanned(start, lines[..i]) == ConfigRules.Scan(p, None)
      {
        var line := lines[i];
        ConfigRules.ScannedStep(start, lines, i);
        if Contains(line, "api_port") {
          var pos := Find(line, ":");
          if pos.Some? {
            var value := line[pos.value + 1..];
            match Stoi(value)
            case Success(v) =>
              p := v;
            case Failure(x) =>
              ConfigRules.ScannedStopsAt(start, lines, i);
              return ConfigRules.Scan(p, Some(x));
          }
        }
        i := i + 1;
      }
      assert lines[..i] == lines;
      return ConfigRules.Scan(p, None);
    }

    /** `load()`: load from the path already recorded. */
    method Load(env: ConfigRules.Environment, files: ConfigRules.Files) returns (r: Result<bool, StdException>)
      modifies this
      ensures (Snapshot(), r) == ConfigRules.Load(old(Snapshot()), old(configFilePath), env, files)
    {
      r := LoadFrom(configFilePath, env, files);
    }

    function Validate(): (ok: bool)
      reads this
      ensures ok <==> 1 <= server.apiPort <= 65535 && 1 <= server.websocketPort <= 65535 && jack.timeoutMs > 0
    {
      ConfigRules.Validate(Snapshot())
    }

    // ---------------------------------------------------------------------------------------------
    // Getters

    function GetApiPort(): CInt reads this { server.apiPort }
    function GetWebSocketPort(): CInt reads this { server.websocketPort }
    function GetHost(): string reads this { server.host }
    function GetMaxConnections(): CInt reads this { server.maxConnections }
    function GetTimeoutSeconds(): CInt reads this { server.timeoutSeconds }
    function GetWindowsHost(): string reads this { jack.windowsHost }
    function GetJackToolsPath(): string reads this { jack.toolsPath }
    function GetJackTimeout(): CInt reads this { jack.timeoutMs }
    function GetReconnectInterval(): CInt reads this { jack.reconnectIntervalMs }
    function GetMonitorInterval(): CInt reads this { jack.monitorIntervalMs }
    /** Reads the JACK section's flag, not the feature flag `SetAutoReconnect` writes. */
    function GetAutoReconnect(): bool reads this { jack.autoReconnect }
    function GetLogLevel(): string reads this { logging.level }
    function IsFileLoggingEnabled(): bool reads this { logging.fileEnabled }
    function GetLogFilePath(): string reads this { logging.filePath }
    function IsConsoleLoggingEnabled(): bool reads this { logging.consoleEnabled }
    function GetMaxFileSizeMB(): CInt reads this { logging.maxFileSizeMb }
    function GetMaxFiles(): CInt reads this { logging.maxFiles }
    function IsAutoReconnectEnabled(): bool reads this { features.autoReconnect }
    function IsConnectionMonitoringEnabled(): bool reads this { features.connectionMonitoring }
    function IsStatePersistenceEnabled(): bool reads this { features.statePersistence }
    function IsWebSocketUpdatesEnabled(): bool reads this { features.websocketUpdates }
    function IsHealthMonitoringEnabled(): bool reads this { features.healthMonitoring }
    function IsLoaded(): bool reads this { loaded }
    function GetConfigFilePath(): string reads this { configFilePath }
    function GetServerConfig(): ServerConfig reads this { server }
    function GetJackConfig(): JackConfig reads this { jack }
    function GetLoggingConfig(): LoggingConfig reads this { logging }
    function GetFeatureConfig(): FeatureConfig reads this { features }

    // ---------------------------------------------------------------------------------------------
    // Setters: each stores its value unchecked and changes nothing else

    method SetApiPort(port: CInt)
      modifies this
      ensures GetApiPort() == port
      ensures Snapshot() == old(Snapshot()).(server := old(server).(apiPort := port))
    {
      server := server.(apiPort := port);
    }

    method SetWebSocketPort(port: CInt)
      modifies this
      ensures GetWebSocketPort() == port
      ensures Snapshot() == old(Snapshot()).(server := old(server).(websocketPort := port))
    {
      server := server.(websocketPort := port);
    }

    method SetHost(host: string)
      modifies this
      ensures GetHost() == host
      ensures Snapshot() == old(Snapshot()).(server := old(server).(host := host))
    {
      server := server.(host := host);
    }

    method SetWindowsHost(host: string)
      modifies this
      ensures GetWindowsHost() == host
      ensures Snapshot() == old(Snapshot()).(jack := old(jack).(windowsHost := host))
    {
      jack := jack.(windowsHost := host);
    }

    method SetJackToolsPath(path: string)
      modifies this
      ensures GetJackToolsPath() == path
      ensures Snapshot() == old(Snapshot()).(jack := old(jack).(toolsPath := path))
    {
      jack := jack.(toolsPath := path);
    }

    method SetJackTimeout(timeout: CInt)
      modifies this
      ensures GetJackTimeout() == timeout
      ensures Snapshot() == old(Snapshot()).(jack := old(jack).(timeoutMs := timeout))
    {
      jack := jack.(timeoutMs := timeout);
    }

    method SetLogLevel(level: string)
      modifies this
      ensures GetLogLevel() == level
      ensures Snapshot() == old(Snapshot()).(logging := old(logging).(level := level))
    {
      logging := logging.(level := level);
    }

    method SetFileLogging(enabled: bool)
      modifies this
      ensures IsFileLoggingEnabled() == enabled
      ensures Snapshot() == old(Snapshot()).(logging := old(logging).(fileEnabled := enabled))
    {
      logging := logging.(fileEnabled := enabled);
    }

    method SetLogFilePath(path: string)
      modifies this
      ensures GetLogFilePath() == path
      ensures Snapshot() == old(Snapshot()).(logging := old(logging).(filePath := path))
    {
      logging := logging.(filePath := path);
    }

    /** Sets the feature flag: `IsAutoReconnectEnabled` follows it, `GetAutoReconnect` does not. */
    method SetAutoReconnect(enabled: bool)
      modifies this
      ensures IsAutoReconnectEnabled() == enabled && GetAutoReconnect() == old(GetAutoReconnect())
      ensures Snapshot() == old(Snapshot()).(features := old(features).(autoReconnect := enabled))
    {
      features := features.(autoReconnect := enabled);
    }

    method SetConnectionMonitoring(enabled: bool)
      modifies this
      ensures IsConnectionMonitoringEnabled() == enabled
      ensures Snapshot() == old(Snapshot()).(features := old(features).(connectionMonitoring := enabled))
    {
      features := features.(connectionMonitoring := enabled);
    }

    method SetConfigFilePath(path: string)
      modifies this
      ensures GetConfigFilePath() == path
      ensures Snapshot() == old(Snapshot()).(configFilePath := path)
    {
      configFilePath := path;
    }
  }
}
