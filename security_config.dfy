/**
 * The security settings of `src/utils/securityConfig.ts`: the three presets, the
 * validation, the per-environment default and the choice between a custom and the
 * default configuration; and the migration of `src/utils/securityMigration.ts` to the
 * less aggressive settings.
 */
module SecurityConfiguration {
  import opened Wrappers

  datatype ResponseLevel = Soft | Hard

  /**
   * A security configuration. The three numbers are the detection threshold, the
   * debugger-check interval and the warning duration in milliseconds; `responseLevel` is
   * `None` when a configuration read from the environment does not set it.
   */
  datatype SecurityConfig = SecurityConfig(
    blockDevTools: bool,
    blockKeyboardShortcuts: bool,
    blockContextMenu: bool,
    blockTextSelection: bool,
    detectDevToolsOpening: bool,
    disableConsole: bool,
    preventSourceViewing: bool,
    enableAntiDebugging: bool,
    protectAgainstInjection: bool,
    obfuscateErrors: bool,
    devToolsDetectionThreshold: real,
    debuggerCheckInterval: real,
    showWarnings: bool,
    warningDuration: real,
    customWarningMessage: Option<string>,
    clearDataOnBreach: bool,
    reloadOnDetection: bool,
    redirectUrl: Option<string>,
    responseLevel: Option<ResponseLevel>)

  const ProductionConfig := SecurityConfig(
    true, true, true, false, true,
    true, true, false, true, true,
    200.0, 1000.0,
    true, 5000.0, Some("Developer tools are disabled in production mode"),
    false, false, None,
    Some(Soft))

  const DevelopmentConfig := SecurityConfig(
    false, false, false, false, false,
    false, false, false, false, false,
    160.0, 1000.0,
    false, 2000.0, None,
    false, false, None,
    Some(Soft))

  const TestingConfig := SecurityConfig(
    true, true, false, false, true,
    false, false, false, true, false,
    200.0, 1000.0,
    true, 2000.0, Some("Developer tools access is limited in testing mode"),
    false, false, None,
    Some(Soft))

  /** `validateSecurityConfig`: the three numbers are within their bounds. */
  predicate Valid(c: SecurityConfig)
  {
    c.devToolsDetectionThreshold >= 0.0 && c.debuggerCheckInterval >= 100.0 && c.warningDuration >= 1000.0
  }

  /** Each preset passes the validation, and the development preset blocks no developer tools. */
  lemma PresetsValid()
    ensures Valid(ProductionConfig) && Valid(DevelopmentConfig) && Valid(TestingConfig)
    ensures !DevelopmentConfig.blockDevTools && !DevelopmentConfig.detectDevToolsOpening
  {
  }

  /** `getDefaultConfigForEnv`: `env` is `NODE_ENV`, `None` when it is unset. */
  function DefaultConfigForEnv(env: Option<string>): (c: SecurityConfig)
    ensures env == Some("production") ==> c == ProductionConfig
    ensures env == Some("test") || env == Some("staging") ==> c == TestingConfig
    ensures env !in {Some("production"), Some("test"), Some("staging")} ==> c == DevelopmentConfig
    ensures Valid(c)
  {
    if env == Some("production") then ProductionConfig
    else if env == Some("test") || env == Some("staging") then TestingConfig
    else DevelopmentConfig
  }

  /** The `REACT_APP_SECURITY_CONFIG` variable: unset or empty, not JSON, or a configuration. */
  datatype CustomConfig = Unset | Unparsable | Given(config: SecurityConfig)

  /**
   * `getSecurityConfig`: a custom configuration is used only when it validates, and the
   * environment's default otherwise, so the result always validates.
   */
  function GetSecurityConfig(env: Option<string>, custom: CustomConfig): (c: SecurityConfig)
    ensures Valid(c)
    ensures custom.Given? && Valid(custom.config) ==> c == custom.config
    ensures !(custom.Given? && Valid(custom.config)) ==> c == DefaultConfigForEnv(env)
  {
    var config := if custom.Given? then custom.config else DefaultConfigForEnv(env);
    if !Valid(config) then DefaultConfigForEnv(env) else config
  }

  // ----- securityMigration.ts -----

  function Max(a: real, b: real): real
  {
    if a >= b then a else b
  }

  /**
   * `migrateSecurityConfig`: text selection, anti-debugging, clearing data and reloading
   * are switched off, the response is soft, the three numbers are raised to at least
   * 200, 1000 and 5000, and every other setting is kept.
   */
  function Migrate(prior: SecurityConfig): (c: SecurityConfig)
    ensures !c.blockTextSelection && !c.enableAntiDebugging && !c.clearDataOnBreach && !c.reloadOnDetection
    ensures c.responseLevel == Some(Soft)
    ensures c.devToolsDetectionThreshold >= 200.0 && c.devToolsDetectionThreshold >= prior.devToolsDetectionThreshold
    ensures c.debuggerCheckInterval >= 1000.0 && c.debuggerCheckInterval >= prior.debuggerCheckInterval
    ensures c.warningDuration >= 5000.0 && c.warningDuration >= prior.warningDuration
    ensures c.devToolsDetectionThreshold in {prior.devToolsDetectionThreshold, 200.0}
    ensures c.debuggerCheckInterval in {prior.debuggerCheckInterval, 1000.0}
    ensures c.warningDuration in {prior.warningDuration, 5000.0}
    ensures c == prior.(blockTextSelection := false, enableAntiDebugging := false,
      devToolsDetectionThreshold := c.devToolsDetectionThreshold,
      debuggerCheckInterval := c.debuggerCheckInterval,
      clearDataOnBreach := false, reloadOnDetection := false,
      warningDuration := c.warningDuration, responseLevel := Some(Soft))
  {
    prior.(
      blockTextSelection := false,
      enableAntiDebugging := false,
      devToolsDetectionThreshold := Max(prior.devToolsDetectionThreshold, 200.0),
      debuggerCheckInterval := Max(prior.debuggerCheckInterval, 1000.0),
      clearDataOnBreach := false,
      reloadOnDetection := false,
      warningDuration := Max(prior.warningDuration, 5000.0),
      responseLevel := Some(Soft))
  }

  /** `needsMigration`. */
  predicate NeedsMigration(c: SecurityConfig)
  {
    c.enableAntiDebugging || c.clearDataOnBreach || c.reloadOnDetection
    || c.devToolsDetectionThreshold < 200.0 || c.responseLevel.None?
  }

  /**
   * A migrated configuration needs no further migration, validates, and migrating it
   * again changes nothing.
   */
  lemma MigrateSettles(c: SecurityConfig)
    ensures !NeedsMigration(Migrate(c))
    ensures Valid(Migrate(c))
    ensures Migrate(Migrate(c)) == Migrate(c)
  {
  }

  /** `autoMigrateIfNeeded`. */
  function AutoMigrate(c: SecurityConfig): (r: SecurityConfig)
    ensures !NeedsMigration(c) ==> r == c
    ensures NeedsMigration(c) ==> r == Migrate(c)
    ensures !NeedsMigration(r)
  {
    if NeedsMigration(c) then Migrate(c) else c
  }

  /**
   * The migration check does not look at text selection, the check interval or the
   * warning duration: a configuration can pass it unmigrated with any of them below the
   * migration's values; the production preset already has the migrated settings.
   */
  lemma MigrationCheckIsPartial()
    ensures var c := DevelopmentConfig.(devToolsDetectionThreshold := 200.0, warningDuration := 1000.0);
      !NeedsMigration(c) && AutoMigrate(c) == c && Migrate(c) != c
    ensures Migrate(ProductionConfig) == ProductionConfig
  {
    var c := DevelopmentConfig.(devToolsDetectionThreshold := 200.0, warningDuration := 1000.0);
    assert Migrate(c).warningDuration == 5000.0;
  }
}
