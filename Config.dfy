/**
 * Configuration: the typed configuration, its defaults, the ordered
 * validator, and the package-level state (the current configuration, the
 * settings instance, the path it was loaded from, the change watchers) that
 * loading, reloading and the getters work on.
 *
 * Reading a file is an oracle from path to outcome ("" asks for the
 * conventional `proxy.toml` search); the outcome carries the file's typed
 * view and the settings instance's lookups.
 */
module Config {

  import opened Wrappers

  datatype ServerConfig = ServerConfig(host: string, port: int)
  datatype TushareConfig = TushareConfig(token: string)
  datatype LogConfig = LogConfig(
    level: string,
    format: string,
    output: string,
    filePath: string,
    maxSize: int,
    maxBackups: int,
    maxAge: int,
    compress: bool)
  datatype Config = Config(server: ServerConfig, tushare: TushareConfig, log: LogConfig)

  const DefaultHost: string := "0.0.0.0"
  const DefaultPort: int := 1155
  const MinPort: int := 1
  const MaxPort: int := 65535
  /** The logger package's default configuration. */
  const DefaultLog: LogConfig := LogConfig("debug", "console", "console", "/tmp/njjgo/logs/app.log", 100, 3, 7, false)

  /** The reasons `validateConfig` gives, in the order it checks them. */
  datatype ConfigError =
    | EmptyHost
    | InvalidPort(port: int)
    | EmptyToken
    | EmptyLogLevel
    | EmptyLogFormat
    | EmptyLogOutput
    | InvalidMaxSize(maxSize: int)
    | InvalidMaxAge(maxAge: int)
    | InvalidMaxBackups(maxBackups: int)

  /** The number of checks `validateConfig` makes. */
  const CheckCount: nat := 9

  /** Position of an error's check in the validation order. */
  function CheckIndex(e: ConfigError): (i: nat)
    ensures i < CheckCount
  {
    match e
    case EmptyHost => 0
    case InvalidPort(_) => 1
    case EmptyToken => 2
    case EmptyLogLevel => 3
    case EmptyLogFormat => 4
    case EmptyLogOutput => 5
    case InvalidMaxSize(_) => 6
    case InvalidMaxAge(_) => 7
    case InvalidMaxBackups(_) => 8
  }

  /** Whether check number `i` accepts `c`. */
  predicate Passes(c: Config, i: nat) {
    if i == 0 then c.server.host != ""
    else if i == 1 then MinPort <= c.server.port <= MaxPort
    else if i == 2 then c.tushare.token != ""
    else if i == 3 then c.log.level != ""
    else if i == 4 then c.log.format != ""
    else if i == 5 then c.log.output != ""
    else if i == 6 then c.log.maxSize > 0
    else if i == 7 then c.log.maxAge > 0
    else if i == 8 then c.log.maxBackups > 0
    else true
  }

  /** The error that check `i` reports for `c`, carrying the offending value. */
  function ErrorOf(c: Config, i: nat): ConfigError
    requires i < CheckCount
  {
    if i == 0 then EmptyHost
    else if i == 1 then InvalidPort(c.server.port)
    else if i == 2 then EmptyToken
    else if i == 3 then EmptyLogLevel
    else if i == 4 then EmptyLogFormat
    else if i == 5 then EmptyLogOutput
    else if i == 6 then InvalidMaxSize(c.log.maxSize)
    else if i == 7 then InvalidMaxAge(c.log.maxAge)
    else InvalidMaxBackups(c.log.maxBackups)
  }

  /**
   * `validateConfig`: success exactly when every check passes; otherwise the
   * error of the first check that fails.
   */
  function ValidateConfig(c: Config): (err: Option<ConfigError>)
    ensures err.None? ==> forall i :: 0 <= i < CheckCount ==> Passes(c, i)
    // and conversely an error names a check that fails, after all earlier ones pass
    ensures err.Some? ==>
      && !Passes(c, CheckIndex(err.value))
      && err.value == ErrorOf(c, CheckIndex(err.value))
      && forall j :: 0 <= j < CheckIndex(err.value) ==> Passes(c, j)
  {
    if c.server.host == "" then Some(EmptyHost)
    else if c.server.port < MinPort || c.server.port > MaxPort then Some(InvalidPort(c.server.port))
    else if c.tushare.token == "" then Some(EmptyToken)
    else if c.log.level == "" then Some(EmptyLogLevel)
    else if c.log.format == "" then Some(EmptyLogFormat)
    else if c.log.output == "" then Some(EmptyLogOutput)
    else if c.log.maxSize <= 0 then Some(InvalidMaxSize(c.log.maxSize))
    else if c.log.maxAge <= 0 then Some(InvalidMaxAge(c.log.maxAge))
    else if c.log.maxBackups <= 0 then Some(InvalidMaxBackups(c.log.maxBackups))
    else None
  }

  /** Every port from 1 to 65535 is accepted when the other fields are valid, and no other port is. */
  lemma PortRange(c: Config, port: int)
    requires ValidateConfig(c).None?
    ensures ValidateConfig(c.(server := c.server.(port := port))).None? <==> MinPort <= port <= MaxPort
  {
  }

  /**
   * The file's typed view: per-field values for the server section, the
   * token, and the log table when the file has one (a field missing from a
   * present log table reads as its zero value).
   */
  datatype RawConfig = RawConfig(
    host: Option<string>,
    port: Option<int>,
    token: string,
    log: Option<LogConfig>)

  /**
   * `setDefaultValues` followed by decoding: `server.host` and `server.port`
   * default field by field; the logger's default configuration stands for an
   * absent log table.
   */
  function ApplyDefaults(raw: RawConfig): (c: Config)
    ensures raw.host.None? ==> c.server.host == DefaultHost
    ensures raw.port.None? ==> c.server.port == DefaultPort
    ensures raw.log.None? ==> c.log == DefaultLog
    ensures raw.host.Some? ==> c.server.host == raw.host.value
    ensures raw.port.Some? ==> c.server.port == raw.port.value
    ensures raw.log.Some? ==> c.log == raw.log.value
    ensures c.tushare.token == raw.token
  {
    var host := match raw.host case Some(h) => h case None => DefaultHost;
    var port := match raw.port case Some(p) => p case None => DefaultPort;
    var log := match raw.log case Some(l) => l case None => DefaultLog;
    Config(ServerConfig(host, port), TushareConfig(raw.token), log)
  }

  /** A file that sets only a token yields a configuration the validator accepts. */
  lemma DefaultsAreValid(token: string)
    requires token != ""
    ensures ValidateConfig(ApplyDefaults(RawConfig(None, None, token, None))).None?
  {
  }

  /** A value as the settings instance holds it. */
  datatype Setting = StringSetting(s: string) | IntSetting(i: int) | BoolSetting(b: bool)
                   | StringListSetting(items: seq<string>) | OtherSetting

  /** The lookups of a settings instance (defaults merged with the file). */
  datatype Settings = Settings(
    get: string -> Option<Setting>,
    getString: string -> string,
    getInt: string -> int,
    getBool: string -> bool,
    getStringSlice: string -> seq<string>)

  /** What reading the configuration file at a path gives. */
  datatype FileRead =
    | NotExist                                        // no file at the path
    | ReadFailed                                      // the file could not be read or parsed
    | Read(raw: Option<RawConfig>, settings: Settings) // raw is None when decoding into Config fails

  /** Why loading failed. */
  datatype LoadError =
    | SpecifiedFileMissing(path: string)
    | SpecifiedFileUnreadable(path: string)
    | DefaultFileNotFound
    | DecodeFailed
    | Invalid(reason: ConfigError)

  /** What `loadConfig` computes: the configuration and settings it keeps, or why it fails. */
  function LoadOutcome(path: string, read: string -> FileRead): (r: Result<(Config, Settings), LoadError>)
    ensures r.Ok? ==> ValidateConfig(r.value.0).None?
    ensures r.Ok? <==> read(path).Read? && read(path).raw.Some? && ValidateConfig(ApplyDefaults(read(path).raw.value)).None?
    ensures r.Ok? ==> r.value == (ApplyDefaults(read(path).raw.value), read(path).settings)
    ensures path != "" && read(path).NotExist? ==> r == Err(SpecifiedFileMissing(path))
  {
    match read(path)
    case NotExist => if path != "" then Err(SpecifiedFileMissing(path)) else Err(DefaultFileNotFound)
    case ReadFailed => if path != "" then Err(SpecifiedFileUnreadable(path)) else Err(DefaultFileNotFound)
    case Read(raw, settings) =>
      match raw
      case None => Err(DecodeFailed)
      case Some(rc) =>
        var c := ApplyDefaults(rc);
        match ValidateConfig(c)
        case Some(e) => Err(Invalid(e))
        case None => Ok((c, settings))
  }

  /** An opaque handle for a registered change watcher. */
  type WatcherId = nat

  /** A change notification: a watcher and the configuration it is given. */
  datatype Notification = Notification(watcher: WatcherId, config: Config)

  /** The package-level configuration state. */
  class ConfigState {
    var globalConfig: Option<Config>
    var settings: Option<Settings>
    var currentConfigPath: string
    var watchers: seq<WatcherId>

    /** The state at program start: everything nil or empty. */
    constructor ()
      ensures globalConfig.None? && settings.None? && currentConfigPath == "" && watchers == []
    {
      globalConfig := None;
      settings := None;
      currentConfigPath := "";
      watchers := [];
    }

    /**
     * `loadConfig`: the settings instance and the path are kept only when
     * the whole load, validation included, succeeds.
     */
    method LoadConfig(path: string, read: string -> FileRead) returns (r: Result<Config, LoadError>)
      modifies this
      ensures r.Ok? <==> LoadOutcome(path, read).Ok?
      ensures r.Ok? ==> (r.value == LoadOutcome(path, read).value.0
                         && settings == Some(LoadOutcome(path, read).value.1) && currentConfigPath == path)
      ensures r.Err? ==> r.error == LoadOutcome(path, read).error && unchanged(this)
      ensures globalConfig == old(globalConfig) && watchers == old(watchers)
    {
      if path != "" && read(path).NotExist? {
        return Err(SpecifiedFileMissing(path));
      }
      var outcome := read(path);
      if !outcome.Read? {
        return if path != "" then Err(SpecifiedFileUnreadable(path)) else Err(DefaultFileNotFound);
      }
      if outcome.raw.None? {
        return Err(DecodeFailed);
      }
      var config := ApplyDefaults(outcome.raw.value);
      var invalid := ValidateConfig(config);
      if invalid.Some? {
        return Err(Invalid(invalid.value));
      }
      settings := Some(outcome.settings);
      currentConfigPath := path;
      r := Ok(config);
    }

    /** `InitConfigFromPath`: the current configuration changes only when loading succeeds. */
    method InitConfigFromPath(path: string, read: string -> FileRead) returns (err: Option<LoadError>)
      modifies this
      ensures err.None? <==> LoadOutcome(path, read).Ok?
      ensures err.Some? ==> err.value == LoadOutcome(path, read).error && unchanged(this)
      ensures err.None? ==> (globalConfig == Some(LoadOutcome(path, read).value.0)
                             && settings == Some(LoadOutcome(path, read).value.1) && currentConfigPath == path)
      ensures watchers == old(watchers)
    {
      var r := LoadConfig(path, read);
      if r.Err? {
        return Some(r.error);
      }
      globalConfig := Some(r.value);
      err := None;
    }

    /** `InitConfig`: `InitConfigFromPath` with the conventional search. */
    method InitConfig(read: string -> FileRead) returns (err: Option<LoadError>)
      modifies this
      ensures err.None? <==> LoadOutcome("", read).Ok?
      ensures err.Some? ==> err.value == LoadOutcome("", read).error && unchanged(this)
      ensures err.None? ==> (globalConfig == Some(LoadOutcome("", read).value.0)
                             && settings == Some(LoadOutcome("", read).value.1) && currentConfigPath == "")
      ensures watchers == old(watchers)
    {
      err := InitConfigFromPath("", read);
    }

    /** Tell every registered watcher, in registration order, about `config`. */
    method NotifyWatchers(config: Config) returns (notified: seq<Notification>)
      ensures |notified| == |watchers|
      ensures forall i :: 0 <= i < |notified| ==> notified[i] == Notification(watchers[i], config)
    {
      notified := [];
      var i := 0;
      while i < |watchers|
        invariant 0 <= i <= |watchers|
        invariant |notified| == i
        invariant forall j :: 0 <= j < i ==> notified[j] == Notification(watchers[j], config)
      {
        notified := notified + [Notification(watchers[i], config)];
        i := i + 1;
      }
    }

    /**
     * `ReloadConfigFromPath`: on success the new configuration replaces the
     * current one and every watcher is told; on failure nothing changes and
     * nobody is told.
     */
    method ReloadConfigFromPath(path: string, read: string -> FileRead)
      returns (err: Option<LoadError>, notified: seq<Notification>)
      modifies this
      ensures err.None? <==> LoadOutcome(path, read).Ok?
      ensures err.Some? ==> err.value == LoadOutcome(path, read).error && unchanged(this) && notified == []
      ensures err.None? ==> (globalConfig == Some(LoadOutcome(path, read).value.0)
                             && settings == Some(LoadOutcome(path, read).value.1) && currentConfigPath == path
                             && |notified| == |watchers|
                             && forall i :: 0 <= i < |notified| ==>
                                  notified[i] == Notification(watchers[i], LoadOutcome(path, read).value.0))
      ensures watchers == old(watchers)
    {
      var r := LoadConfig(path, read);
      if r.Err? {
        return Some(r.error), [];
      }
      globalConfig := Some(r.value);
      notified := NotifyWatchers(r.value);
      err := None;
    }

    /** `ReloadConfig`: reload from the path the current configuration came from. */
    method ReloadConfig(read: string -> FileRead) returns (err: Option<LoadError>, notified: seq<Notification>)
      modifies this
      ensures err.None? <==> LoadOutcome(old(currentConfigPath), read).Ok?
      ensures err.Some? ==> err.value == LoadOutcome(old(currentConfigPath), read).error
                            && unchanged(this) && notified == []
      ensures err.None? ==> (globalConfig == Some(LoadOutcome(old(currentConfigPath), read).value.0)
                             && settings == Some(LoadOutcome(old(currentConfigPath), read).value.1)
                             && currentConfigPath == old(currentConfigPath)
                             && |notified| == |watchers|
                             && forall i :: 0 <= i < |notified| ==>
                                  notified[i] == Notification(watchers[i], LoadOutcome(old(currentConfigPath), read).value.0))
      ensures watchers == old(watchers)
    {
      err, notified := ReloadConfigFromPath(currentConfigPath, read);
    }

    /** `UpdateServerPort`: no-op without a configuration; otherwise only the port changes. */
    method UpdateServerPort(port: int)
      modifies this
      ensures old(globalConfig).None? ==> unchanged(this)
      ensures old(globalConfig).Some? ==>
        globalConfig == Some(old(globalConfig).value.(server := old(globalConfig).value.server.(port := port)))
      ensures settings == old(settings) && currentConfigPath == old(currentConfigPath) && watchers == old(watchers)
    {
      if globalConfig.Some? {
        var c := globalConfig.value;
        globalConfig := Some(c.(server := c.server.(port := port)));
      }
    }

    /** `WatchConfig`: register a watcher after the existing ones. */
    method WatchConfig(watcher: WatcherId)
      modifies this
      ensures watchers == old(watchers) + [watcher]
      ensures globalConfig == old(globalConfig) && settings == old(settings)
      ensures currentConfigPath == old(currentConfigPath)
    {
      watchers := watchers + [watcher];
    }

    /** `GetConfig`. */
    function GetConfig(): Option<Config>
      reads this
    {
      globalConfig
    }

    /** `GetCurrentConfigPath`. */
    function GetCurrentConfigPath(): string
      reads this
    {
      currentConfigPath
    }

    /** `GetConfigValue`: nil without a settings instance. */
    function GetConfigValue(key: string): (v: Option<Setting>)
      reads this
      ensures settings.None? ==> v.None?
      ensures settings.Some? ==> v == settings.value.get(key)
    {
      if settings.None? then None else settings.value.get(key)
    }

    /** `GetConfigString`: "" without a settings instance. */
    function GetConfigString(key: string): (v: string)
      reads this
      ensures settings.None? ==> v == ""
      ensures settings.Some? ==> v == settings.value.getString(key)
    {
      if settings.None? then "" else settings.value.getString(key)
    }

    /** `GetConfigInt`: 0 without a settings instance. */
    function GetConfigInt(key: string): (v: int)
      reads this
      ensures settings.None? ==> v == 0
      ensures settings.Some? ==> v == settings.value.getInt(key)
    {
      if settings.None? then 0 else settings.value.getInt(key)
    }

    /** `GetConfigBool`: false without a settings instance. */
    function GetConfigBool(key: string): (v: bool)
      reads this
      ensures settings.None? ==> !v
      ensures settings.Some? ==> v == settings.value.getBool(key)
    {
      if settings.None? then false else settings.value.getBool(key)
    }

    /** `GetConfigStringSlice`: nil (empty) without a settings instance. */
    function GetConfigStringSlice(key: string): (v: seq<string>)
      reads this
      ensures settings.None? ==> v == []
      ensures settings.Some? ==> v == settings.value.getStringSlice(key)
    {
      if settings.None? then [] else settings.value.getStringSlice(key)
    }
  }

  /** A failed reload between two successful loads leaves the configuration of the first in place. */
  method FailedReloadKeepsConfig(state: ConfigState, path: string, read: string -> FileRead, reread: string -> FileRead)
    returns (initErr: Option<LoadError>, reloadErr: Option<LoadError>)
    requires LoadOutcome(path, read).Ok? && LoadOutcome(path, reread).Err?
    modifies state
    ensures initErr.None? && reloadErr.Some?
    ensures state.globalConfig == Some(LoadOutcome(path, read).value.0) && state.currentConfigPath == path
  {
    initErr := state.InitConfigFromPath(path, read);
    var notified;
    reloadErr, notified := state.ReloadConfig(reread);
  }
}
