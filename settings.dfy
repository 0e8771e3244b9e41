/**
 * The configuration the shim reads on every call, and the test suite's
 * `settings(**kwargs)` helper that patches it.
 */
module Settings {
  import opened Wrappers
  import opened Patching

  /** A configuration value: a boolean flag or a non-negative integer. */
  datatype Setting = Flag(b: bool) | Number(n: nat)

  /** The configuration namespace, attribute name to value. */
  type Config = map<string, Setting>

  const RoundsKey := "BCRYPT_ROUNDS"
  const EnabledKey := "BCRYPT_ENABLED"
  const EnabledUnderTestKey := "BCRYPT_ENABLED_UNDER_TEST"
  const MigrateKey := "BCRYPT_MIGRATE"

  /** Work factor used when BCRYPT_ROUNDS is not configured. */
  const DefaultRounds: nat := 12

  /** Python truthiness of a setting. */
  function Truth(s: Setting): bool
  {
    match s
    case Flag(b) => b
    case Number(n) => n != 0
  }

  /** A setting read where an integer is expected (a Python bool is the integer 0 or 1). */
  function AsInt(s: Setting): nat
  {
    match s
    case Flag(b) => if b then 1 else 0
    case Number(n) => n
  }

  /** getattr(settings, key, default), read as a flag. */
  function FlagOr(cfg: Config, key: string, default: bool): bool
  {
    if key in cfg then Truth(cfg[key]) else default
  }

  /** get_rounds(): the configured work factor, 12 when it is not configured. */
  function GetRounds(cfg: Config): (rounds: nat)
    ensures RoundsKey !in cfg ==> rounds == DefaultRounds
    ensures RoundsKey in cfg && cfg[RoundsKey].Number? ==> rounds == cfg[RoundsKey].n
  {
    if RoundsKey in cfg then AsInt(cfg[RoundsKey]) else DefaultRounds
  }

  /**
   * is_enabled(): bcrypt is used for new hashes when BCRYPT_ENABLED is
   * on (default on) and, while the test suite runs, BCRYPT_ENABLED_UNDER_TEST
   * is on as well (default off).
   */
  function IsEnabled(cfg: Config, underTest: bool): (enabled: bool)
    ensures EnabledKey in cfg && !Truth(cfg[EnabledKey]) ==> !enabled
    ensures !underTest ==> (enabled <==> EnabledKey !in cfg || Truth(cfg[EnabledKey]))
    ensures underTest && EnabledUnderTestKey !in cfg ==> !enabled
    ensures underTest ==> (enabled <==> (EnabledKey !in cfg || Truth(cfg[EnabledKey]))
                                        && EnabledUnderTestKey in cfg && Truth(cfg[EnabledUnderTestKey]))
  {
    FlagOr(cfg, EnabledKey, true) && (!underTest || FlagOr(cfg, EnabledUnderTestKey, false))
  }

  /** migrate_to_bcrypt(): whether verified logins are upgraded; off unless configured. */
  function MigrateToBcrypt(cfg: Config): (migrate: bool)
    ensures MigrateKey !in cfg ==> !migrate
    ensures MigrateKey in cfg ==> migrate == Truth(cfg[MigrateKey])
  {
    FlagOr(cfg, MigrateKey, false)
  }

  /**
   * settings(**kwargs): the patch values. BCRYPT_ENABLED and
   * BCRYPT_ENABLED_UNDER_TEST are always patched, to True unless the caller
   * gives them; every other name is patched only when the caller gives it.
   */
  function SettingsPatch(kwargs: map<string, Option<Setting>>): (values: map<string, Option<Setting>>)
    ensures values.Keys == kwargs.Keys + {EnabledKey, EnabledUnderTestKey}
    ensures forall k :: k in kwargs ==> values[k] == kwargs[k]
    ensures EnabledKey !in kwargs ==> values[EnabledKey] == Some(Flag(true))
    ensures EnabledUnderTestKey !in kwargs ==> values[EnabledUnderTestKey] == Some(Flag(true))
  {
    map[EnabledKey := Some(Flag(true)), EnabledUnderTestKey := Some(Flag(true))] + kwargs
  }

  /** The configuration inside `with settings(**kwargs)`, starting from any configuration. */
  function UnderSettings(cfg: Config, kwargs: map<string, Option<Setting>>): (during: Config)
    ensures forall k :: k in kwargs ==> Lookup(during, k) == kwargs[k]
    ensures EnabledKey !in kwargs ==> Lookup(during, EnabledKey) == Some(Flag(true))
    ensures EnabledUnderTestKey !in kwargs ==> Lookup(during, EnabledUnderTestKey) == Some(Flag(true))
    ensures forall k :: k !in kwargs && k != EnabledKey && k != EnabledUnderTestKey ==> Lookup(during, k) == Lookup(cfg, k)
  {
    Overlay(cfg, SettingsPatch(kwargs))
  }

  /** Inside `with settings(...)` that does not name the two flags, bcrypt is enabled, under test or not. */
  lemma SettingsEnableBcrypt(cfg: Config, kwargs: map<string, Option<Setting>>, underTest: bool)
    requires EnabledKey !in kwargs && EnabledUnderTestKey !in kwargs
    ensures IsEnabled(UnderSettings(cfg, kwargs), underTest)
  {
    var during := UnderSettings(cfg, kwargs);
    assert Lookup(during, EnabledKey) == Some(Flag(true));
    assert Lookup(during, EnabledUnderTestKey) == Some(Flag(true));
  }

  /** `with settings(BCRYPT_ROUNDS=v)`: get_rounds() gives v (0 included), or 12 when v is NotImplemented. */
  lemma RoundsUnderSettings(cfg: Config, v: Option<nat>)
    ensures GetRounds(UnderSettings(cfg, map[RoundsKey := if v.Some? then Some(Number(v.value)) else None])) ==
      if v.Some? then v.value else DefaultRounds
  {
    var kwargs := map[RoundsKey := if v.Some? then Some(Number(v.value)) else None];
    assert Lookup(UnderSettings(cfg, kwargs), RoundsKey) == kwargs[RoundsKey];
  }

  /**
   * `with settings(BCRYPT_ENABLED=v)` under test: is_enabled() is v, and
   * True when v is NotImplemented (the default applies).
   */
  lemma EnabledUnderSettings(cfg: Config, v: Option<bool>)
    ensures IsEnabled(UnderSettings(cfg, map[EnabledKey := if v.Some? then Some(Flag(v.value)) else None]), true) ==
      (v.None? || v.value)
  {
    var kwargs := map[EnabledKey := if v.Some? then Some(Flag(v.value)) else None];
    var during := UnderSettings(cfg, kwargs);
    assert Lookup(during, EnabledKey) == kwargs[EnabledKey];
    assert Lookup(during, EnabledUnderTestKey) == Some(Flag(true));
  }

  /**
   * `with settings(BCRYPT_ENABLED_UNDER_TEST=v)` under test: is_enabled()
   * is v, and False when v is NotImplemented (the under-test default).
   */
  lemma EnabledUnderTestUnderSettings(cfg: Config, v: Option<bool>)
    ensures IsEnabled(UnderSettings(cfg, map[EnabledUnderTestKey := if v.Some? then Some(Flag(v.value)) else None]), true) ==
      (v.Some? && v.value)
  {
    var kwargs := map[EnabledUnderTestKey := if v.Some? then Some(Flag(v.value)) else None];
    var during := UnderSettings(cfg, kwargs);
    assert Lookup(during, EnabledKey) == Some(Flag(true));
    assert Lookup(during, EnabledUnderTestKey) == kwargs[EnabledUnderTestKey];
  }

  /** `with settings(BCRYPT_MIGRATE=v)`: migrate_to_bcrypt() is v, and False when v is NotImplemented. */
  lemma MigrateUnderSettings(cfg: Config, v: Option<bool>)
    ensures MigrateToBcrypt(UnderSettings(cfg, map[MigrateKey := if v.Some? then Some(Flag(v.value)) else None])) ==
      (v.Some? && v.value)
  {
    var kwargs := map[MigrateKey := if v.Some? then Some(Flag(v.value)) else None];
    assert Lookup(UnderSettings(cfg, kwargs), MigrateKey) == kwargs[MigrateKey];
  }
}
