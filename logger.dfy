/**
 * The level gating of the logger in `src/utils/logger.ts`. The configuration is read
 * from the environment once, when the logger is built, and never changes; a log call
 * either writes one prefixed line or nothing.
 */
module Logging {
  import opened Wrappers

  datatype LogLevel = Debug | Info | Warn | Error

  /** The level's entry in the rank table. */
  function Rank(level: LogLevel): nat
  {
    match level
    case Debug => 0
    case Info => 1
    case Warn => 2
    case Error => 3
  }

  /** The ranks are strictly increasing from `debug` to `error`, so they tell levels apart. */
  lemma RanksOrdered(a: LogLevel, b: LogLevel)
    ensures Rank(Debug) < Rank(Info) < Rank(Warn) < Rank(Error)
    ensures Rank(a) == Rank(b) <==> a == b
    ensures Rank(a) <= Rank(Error)
  {
  }

  function LevelName(level: LogLevel): string
  {
    match level
    case Debug => "debug"
    case Info => "info"
    case Warn => "warn"
    case Error => "error"
  }

  /**
   * The configured level: one of the four, or a value of `REACT_APP_LOG_LEVEL` that is
   * none of them (the rank table then has no entry for it).
   */
  datatype ConfiguredLevel = Known(level: LogLevel) | Unrecognised

  datatype LoggerConfig = LoggerConfig(
    enableConsoleLogging: bool,
    enablePerformanceLogging: bool,
    logLevel: ConfiguredLevel,
    isDevelopment: bool)

  /** `REACT_APP_LOG_LEVEL || 'info'`: an unset or empty variable means `info`. */
  function ParseLevel(env: Option<string>): (c: ConfiguredLevel)
    ensures env.None? || env == Some("") ==> c == Known(Info)
    ensures forall level :: env == Some(LevelName(level)) ==> c == Known(level)
    ensures c.Unrecognised? <==> env.Some? && env.value !in {"", "debug", "info", "warn", "error"}
  {
    if env.None? || env == Some("") then Known(Info)
    else if env.value == "debug" then Known(Debug)
    else if env.value == "info" then Known(Info)
    else if env.value == "warn" then Known(Warn)
    else if env.value == "error" then Known(Error)
    else Unrecognised
  }

  /**
   * The constructor: console logging and the development flag follow `NODE_ENV`, and
   * performance logging needs `REACT_APP_ENABLE_PERFORMANCE_MONITORING` to be `true`.
   */
  function ConfigFromEnv(nodeEnv: Option<string>, performanceFlag: Option<string>, logLevel: Option<string>): (c: LoggerConfig)
    ensures c.enableConsoleLogging == c.isDevelopment == (nodeEnv == Some("development"))
    ensures c.enablePerformanceLogging <==> performanceFlag == Some("true")
    ensures c.logLevel == ParseLevel(logLevel)
  {
    LoggerConfig(nodeEnv == Some("development"), performanceFlag == Some("true"), ParseLevel(logLevel),
      nodeEnv == Some("development"))
  }

  /**
   * `shouldLog`: with console logging off only errors get past the first test; then the
   * level's rank must reach the configured one, which an unrecognised level has none of.
   */
  predicate ShouldLog(config: LoggerConfig, level: LogLevel)
  {
    if !config.enableConsoleLogging && level != Error then false
    else config.logLevel.Known? && Rank(level) >= Rank(config.logLevel.level)
  }

  /** With console logging off, nothing but an error can be logged. */
  lemma DisabledOnlyErrors(config: LoggerConfig, level: LogLevel)
    requires !config.enableConsoleLogging
    ensures ShouldLog(config, level) ==> level == Error
    ensures ShouldLog(config, Error) <==> config.logLevel.Known?
  {
  }

  /**
   * With console logging on, a level passes exactly when it ranks at least as high as the
   * configured one; so whatever passes, every higher level passes too.
   */
  lemma EnabledByRank(config: LoggerConfig, level: LogLevel, higher: LogLevel)
    requires config.enableConsoleLogging && config.logLevel.Known?
    ensures ShouldLog(config, level) <==> Rank(level) >= Rank(config.logLevel.level)
    ensures ShouldLog(config, level) && Rank(level) <= Rank(higher) ==> ShouldLog(config, higher)
  {
  }

  /** Passing is upward closed in rank, whatever the configuration. */
  lemma UpwardClosed(config: LoggerConfig, level: LogLevel, higher: LogLevel)
    requires ShouldLog(config, level) && Rank(level) <= Rank(higher)
    ensures ShouldLog(config, higher)
  {
  }

  /** Errors are logged under every recognised level; an unrecognised one silences everything. */
  lemma ErrorsPass(config: LoggerConfig, level: LogLevel)
    ensures config.logLevel.Known? ==> ShouldLog(config, Error)
    ensures config.logLevel.Unrecognised? ==> !ShouldLog(config, level)
  {
  }

  function Prefix(level: LogLevel): string
  {
    match level
    case Debug => "[ALTER-EGO DEBUG] "
    case Info => "[ALTER-EGO] "
    case Warn => "[ALTER-EGO WARN] "
    case Error => "[ALTER-EGO ERROR] "
  }

  /** `debug`, `info`, `warn` and `error`: the prefixed message when the level passes. */
  function Log(config: LoggerConfig, level: LogLevel, message: string): (line: Option<string>)
    ensures line.Some? <==> ShouldLog(config, level)
    ensures line.Some? ==> line.value == Prefix(level) + message
  {
    if ShouldLog(config, level) then Some(Prefix(level) + message) else None
  }

  /** `performance`: only with both the performance flag and the development flag. */
  function Performance(config: LoggerConfig, message: string): (line: Option<string>)
    ensures line.Some? <==> config.enablePerformanceLogging && config.isDevelopment
    ensures line.Some? ==> line.value == "[ALTER-EGO PERF] " + message
  {
    if config.enablePerformanceLogging && config.isDevelopment then Some("[ALTER-EGO PERF] " + message) else None
  }

  /** `system`: always logged. */
  function System(config: LoggerConfig, message: string): (line: Option<string>)
    ensures line == Some("[ALTER-EGO SYSTEM] " + message)
  {
    Some("[ALTER-EGO SYSTEM] " + message)
  }

  /**
   * Outside development the logger writes only errors and system lines: console and
   * performance logging both hang on `NODE_ENV` being `development`.
   */
  lemma ProductionLogging(nodeEnv: Option<string>, performanceFlag: Option<string>, logLevel: Option<string>,
                          level: LogLevel, message: string)
    requires nodeEnv != Some("development")
    ensures var config := ConfigFromEnv(nodeEnv, performanceFlag, logLevel);
      && (Log(config, level, message).Some? ==> level == Error)
      && Performance(config, message).None?
      && System(config, message).Some?
  {
  }
}
