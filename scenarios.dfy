/**
 * The test suite's password cases, stated for every starting configuration
 * and every choice of hash primitives and random salts.
 */
module Scenarios {
  import opened Wrappers
  import opened Text
  import opened Patching
  import opened Settings
  import opened Bcrypt
  import opened Records
  import opened Passwords

  const NoKwargs: map<string, Option<Setting>> := map[]

  /**
   * test_bcrypt_password: the password set under settings() is accepted by
   * a check made in the starting configuration, which may rewrite the
   * record (migration on, rounds outside 4..31) with a fresh salt; a second
   * check with "invalid" against the record that check left fails unless
   * the digests collide under that record's work factor and salt.
   */
  lemma BcryptPasswordAccepted(p: Primitives, cfg: Config, e: Entropy, salt1: Salt, salt2: Salt)
    ensures var record := NewRecord(p, UnderSettings(cfg, NoKwargs), true, Some("password"), e);
      var v := Check(p, cfg, record, "password", salt1);
      var c := ClampCost(GetRounds(cfg));
      var s := if v.saved then salt1 else e.bcryptSalt;
      && v.ok
      && (Check(p, cfg, v.record, "invalid", salt2).ok <==> p.eks("invalid", c, s) == p.eks("password", c, s))
  {
    var during := UnderSettings(cfg, NoKwargs);
    SettingsEnableBcrypt(cfg, NoKwargs, true);
    SettingsKeepRounds(cfg);
    FoldKeepsAscii("password");
    FoldKeepsAscii("invalid");
    SecondCheckOfBcryptRecord(p, cfg, "password", "password", "invalid", GetRounds(during), e.bcryptSalt, salt1, salt2);
  }

  /** settings() leaves BCRYPT_ROUNDS as it was. */
  lemma SettingsKeepRounds(cfg: Config)
    ensures GetRounds(UnderSettings(cfg, NoKwargs)) == GetRounds(cfg)
  {
    assert Lookup(UnderSettings(cfg, NoKwargs), RoundsKey) == Lookup(cfg, RoundsKey);
  }

  /**
   * test_unicode_password: a password set with accented letters is accepted
   * in its plain-letter spelling by a check in the starting configuration;
   * a second check with "invalid" against the record that check left fails
   * unless the digests collide.
   */
  lemma UnicodePasswordAccepted(p: Primitives, cfg: Config, e: Entropy, salt1: Salt, salt2: Salt)
    ensures var record := NewRecord(p, UnderSettings(cfg, NoKwargs), true,
                                    Some("a\U{E1}\U{E5}\U{E4}e\U{E9}\U{EA}\U{EB}o\U{F4}\U{F6}"), e);
      var v := Check(p, cfg, record, "aaaaeeeeooo", salt1);
      var c := ClampCost(GetRounds(cfg));
      var s := if v.saved then salt1 else e.bcryptSalt;
      && v.ok
      && (Check(p, cfg, v.record, "invalid", salt2).ok <==> p.eks("invalid", c, s) == p.eks("aaaaeeeeooo", c, s))
  {
    var during := UnderSettings(cfg, NoKwargs);
    SettingsEnableBcrypt(cfg, NoKwargs, true);
    SettingsKeepRounds(cfg);
    var accented := "a\U{E1}\U{E5}\U{E4}e\U{E9}\U{EA}\U{EB}o\U{F4}\U{F6}";
    AccentedFolds();
    FoldKeepsAscii("invalid");
    SecondCheckOfBcryptRecord(p, cfg, accented, "aaaaeeeeooo", "invalid", GetRounds(during), e.bcryptSalt, salt1, salt2);
  }

  /** The accented password of test_unicode_password reaches bcrypt in the same spelling as its plain letters. */
  lemma AccentedFolds()
    ensures Fold("a\U{E1}\U{E5}\U{E4}e\U{E9}\U{EA}\U{EB}o\U{F4}\U{F6}") == "aaaaeeeeooo"
    ensures Fold("aaaaeeeeooo") == "aaaaeeeeooo"
  {
    FoldKeepsAscii("aaaaeeeeooo");
  }

  /**
   * test_sha1_password: a legacy record accepts its password; a check in
   * the starting configuration succeeds and, with migration on, rewrites
   * the record as a bcrypt hash; a second check with "invalid" against the
   * record that check left fails unless the digests collide.
   */
  lemma Sha1PasswordAccepted(p: Primitives, cfg: Config, legacySalt: Field, salt1: Salt, salt2: Salt)
    ensures Verify(p, LegacyRecord(p, Some("password"), legacySalt), "password")
    ensures Verify(p, LegacyRecord(p, Some("password"), legacySalt), "invalid") <==>
      p.hexdigest(legacySalt, "invalid") == p.hexdigest(legacySalt, "password")
    ensures var v := Check(p, cfg, LegacyRecord(p, Some("password"), legacySalt), "password", salt1);
      var c := ClampCost(GetRounds(cfg));
      && v.ok
      && (Check(p, cfg, v.record, "invalid", salt2).ok <==>
          if MigrateToBcrypt(cfg) then p.eks("invalid", c, salt1) == p.eks("password", c, salt1)
          else p.hexdigest(legacySalt, "invalid") == p.hexdigest(legacySalt, "password"))
  {
    VerifyLegacyRecord(p, "password", "password", legacySalt);
    VerifyLegacyRecord(p, "password", "invalid", legacySalt);
    FoldKeepsAscii("password");
    FoldKeepsAscii("invalid");
    SecondCheckOfLegacyRecord(p, cfg, "password", "invalid", legacySalt, salt1, salt2);
  }

  /**
   * test_set_password: the record is 'bc$' followed by a hash for which
   * hashpw(password, hash) == hash.
   */
  lemma SetPasswordIsBcrypt(p: Primitives, cfg: Config, e: Entropy)
    ensures var record := NewRecord(p, UnderSettings(cfg, NoKwargs), true, Some("password"), e);
      && BcryptTag <= record
      && Checkpw(p.eks, "password", record[|BcryptTag|..])
  {
    var during := UnderSettings(cfg, NoKwargs);
    SettingsEnableBcrypt(cfg, NoKwargs, true);
    BcryptRecordAcceptsPassword(p, GetRounds(during), e.bcryptSalt);
  }

  /** test_disabled: with BCRYPT_ENABLED=False the record does not start with 'bc$'. */
  lemma DisabledNotBcrypt(p: Primitives, cfg: Config, e: Entropy)
    ensures !(BcryptTag <= NewRecord(p, UnderSettings(cfg, map[EnabledKey := Some(Flag(false))]), true, Some("password"), e))
  {
    EnabledUnderSettings(cfg, Some(false));
  }

  /** test_set_unusable_password: None stores the sentinel. */
  lemma UnusableStored(p: Primitives, cfg: Config, e: Entropy)
    ensures NewRecord(p, UnderSettings(cfg, NoKwargs), true, None, e) == UnusablePassword
  {
  }

  /**
   * test_change_rounds (set): with BCRYPT_ROUNDS=0 the record is still a
   * valid bcrypt hash of the password, at bcrypt's smallest work factor.
   */
  lemma ZeroRoundsStillBcrypt(p: Primitives, cfg: Config, e: Entropy)
    ensures var record := NewRecord(p, UnderSettings(cfg, map[RoundsKey := Some(Number(0))]), true, Some("password"), e);
      && BcryptTag <= record
      && Checkpw(p.eks, "password", record[|BcryptTag|..])
      && Decode(record).Bcrypt? && Decode(record).payload.cost == MinCost
  {
    var kwargs := map[RoundsKey := Some(Number(0))];
    var during := UnderSettings(cfg, kwargs);
    SettingsEnableBcrypt(cfg, kwargs, true);
    RoundsUnderSettings(cfg, Some(0));
    BcryptRecordAcceptsPassword(p, GetRounds(during), e.bcryptSalt);
  }

  /** test_change_rounds (check): a password set at 5 rounds, then at 12, is accepted each time. */
  lemma ChangedRoundsAccepted(p: Primitives, cfg: Config, e: Entropy)
    ensures Verify(p, NewRecord(p, UnderSettings(cfg, map[RoundsKey := Some(Number(5))]), true, Some("password"), e), "password")
    ensures Verify(p, NewRecord(p, UnderSettings(cfg, map[RoundsKey := Some(Number(12))]), true, Some("password"), e), "password")
  {
    SetThenVerify(p, UnderSettings(cfg, map[RoundsKey := Some(Number(5))]), true, "password", e);
    SetThenVerify(p, UnderSettings(cfg, map[RoundsKey := Some(Number(12))]), true, "password", e);
  }

  /** The settings of the migration tests. */
  function MigrateSettings(rounds: Option<nat>, migrate: bool): map<string, Option<Setting>>
  {
    var base := map[MigrateKey := Some(Flag(migrate)), EnabledUnderTestKey := Some(Flag(true))];
    if rounds.Some? then base[RoundsKey := Some(Number(rounds.value))] else base
  }

  /** Inside the migration tests' settings, bcrypt is enabled and the rounds and migrate flag are the given ones. */
  lemma MigrateSettingsRead(cfg: Config, rounds: Option<nat>, migrate: bool)
    ensures var during := UnderSettings(cfg, MigrateSettings(rounds, migrate));
      && IsEnabled(during, true)
      && MigrateToBcrypt(during) == migrate
      && (rounds.Some? ==> GetRounds(during) == rounds.value)
  {
    var during := UnderSettings(cfg, MigrateSettings(rounds, migrate));
    assert Lookup(during, EnabledKey) == Some(Flag(true));
    assert Lookup(during, EnabledUnderTestKey) == Some(Flag(true));
    assert Lookup(during, MigrateKey) == Some(Flag(migrate));
    if rounds.Some? {
      assert Lookup(during, RoundsKey) == Some(Number(rounds.value));
    }
  }

  /**
   * test_migrate_bcrypt_to_bcrypt: a password set at 10 rounds and checked
   * with 12 configured is rewritten and saved; the third '$'-field of the
   * new hash is "12".
   */
  lemma BcryptMigratesToNewRounds(p: Primitives, cfg: Config, e: Entropy, salt: Salt)
    ensures var first := NewRecord(p, UnderSettings(cfg, MigrateSettings(Some(10), true)), true, Some("password"), e);
      var v := Check(p, UnderSettings(cfg, MigrateSettings(Some(12), true)), first, "password", salt);
      && v.ok && v.saved
      && |Split(v.record[|BcryptTag|..], '$')| == 4
      && Split(v.record[|BcryptTag|..], '$')[2] == "12"
  {
    var before := UnderSettings(cfg, MigrateSettings(Some(10), true));
    var after := UnderSettings(cfg, MigrateSettings(Some(12), true));
    MigrateSettingsRead(cfg, Some(10), true);
    MigrateSettingsRead(cfg, Some(12), true);
    var first := NewRecord(p, before, true, Some("password"), e);
    SetThenVerify(p, before, true, "password", e);
    SetPasswordCost(p, before, true, "password", e);
    assert NeedsRehash(after, first);
    var v := Check(p, after, first, "password", salt);
    assert v.record == BcryptRecord(p, "password", 12, salt);
    RecordCostField(p, "password", 12, salt);
    assert CostField(12) == "12";
  }

  /** The third '$'-field of a bcrypt record's hash is the clamped work factor in two digits. */
  lemma RecordCostField(p: Primitives, raw: string, rounds: nat, salt: Salt)
    ensures var hash := BcryptRecord(p, raw, rounds, salt)[|BcryptTag|..];
      |Split(hash, '$')| == 4 && Split(hash, '$')[2] == CostField(ClampCost(rounds))
  {
    BcryptRecordDecodes(p, raw, rounds, salt);
    CostFieldOfEncoding(HashNew(p.eks, Fold(raw), rounds, salt));
  }

  /** test_no_bcrypt_to_bcrypt: set and checked at the same 10 rounds, the record is unchanged. */
  lemma SameRoundsUnchanged(p: Primitives, cfg: Config, e: Entropy, salt: Salt)
    ensures var during := UnderSettings(cfg, MigrateSettings(Some(10), true));
      var first := NewRecord(p, during, true, Some("password"), e);
      Check(p, during, first, "password", salt) == Verdict(true, first, false)
  {
    var during := UnderSettings(cfg, MigrateSettings(Some(10), true));
    MigrateSettingsRead(cfg, Some(10), true);
    SetThenVerify(p, during, true, "password", e);
    SetPasswordCost(p, during, true, "password", e);
  }

  /** test_no_migrate_password: with BCRYPT_MIGRATE=False a legacy record is accepted and stays legacy. */
  lemma NoMigrationStaysSha1(p: Primitives, cfg: Config, legacySalt: Field, salt: Salt)
    ensures var during := UnderSettings(cfg, MigrateSettings(None, false));
      var first := LegacyRecord(p, Some("password"), legacySalt);
      Check(p, during, first, "password", salt) == Verdict(true, first, false) && first[..5] == "sha1$"
  {
    var during := UnderSettings(cfg, MigrateSettings(None, false));
    assert Lookup(during, MigrateKey) == Some(Flag(false));
    VerifyLegacyRecord(p, "password", "password", legacySalt);
    LegacyRecordIsSha1(p, "password", legacySalt);
  }

  /** A bcrypt record made from "password" is 'bc$' followed by a hash that accepts "password". */
  lemma BcryptRecordAcceptsPassword(p: Primitives, rounds: nat, salt: Salt)
    ensures var record := BcryptRecord(p, "password", rounds, salt);
      BcryptTag <= record && Checkpw(p.eks, "password", record[|BcryptTag|..])
  {
    FoldKeepsAscii("password");
    BcryptRecordDecodes(p, "password", rounds, salt);
    CheckpwHashNew(p.eks, "password", "password", rounds, salt);
  }

  /** With migration on, checking a legacy record made from "password" rewrites it as a bcrypt record. */
  lemma Sha1Migrates(p: Primitives, cfg: Config, legacySalt: Field, salt: Salt)
    requires MigrateToBcrypt(cfg)
    ensures Check(p, cfg, LegacyRecord(p, Some("password"), legacySalt), "password", salt) ==
      Verdict(true, BcryptRecord(p, "password", GetRounds(cfg), salt), true)
  {
    VerifyLegacyRecord(p, "password", "password", legacySalt);
    DecodeEncode(Sha1(legacySalt, p.hexdigest(legacySalt, "password")));
  }

  /** Django's own set_password stores a record starting with "sha1$" (assertSha1). */
  lemma LegacyRecordIsSha1(p: Primitives, raw: string, salt: Field)
    ensures var record := LegacyRecord(p, Some(raw), salt);
      |record| >= 5 && record[..5] == "sha1$"
  {
    JoinSha1(salt, p.hexdigest(salt, raw));
  }

  /**
   * test_migrate_sha1_to_bcrypt, run on the objects: inside
   * `with settings(BCRYPT_MIGRATE=True, BCRYPT_ENABLED_UNDER_TEST=True)` a
   * user given a legacy password holds a "sha1$" record; it is checked; the
   * check succeeds, the record becomes a bcrypt hash of the password, the
   * store holds the new record, and the configuration is as it was once the
   * block ends.
   */
  method MigrateSha1ToBcrypt(p: Primitives, cfg: Config, legacySalt: Field, salt: Salt)
    returns (legacy: string, ok: bool, record: string, saved: map<string, string>, cfgAfter: Config)
    ensures |legacy| >= 5 && legacy[..5] == "sha1$"
    ensures ok
    ensures BcryptTag <= record && Checkpw(p.eks, "password", record[|BcryptTag|..])
    ensures "username" in saved && saved["username"] == record
    ensures cfgAfter == cfg
  {
    var conf := new Namespace(cfg);
    var store := new UserStore();
    var user := new User("username");
    var values := SettingsPatch(MigrateSettings(None, true));
    var originals := conf.Enter(values);
    MigrateSettingsRead(cfg, None, true);
    user.LegacySetPassword(p, Some("password"), legacySalt);
    legacy := user.password;
    LegacyRecordIsSha1(p, "password", legacySalt);
    Sha1Migrates(p, conf.attrs, legacySalt, salt);
    ok := user.CheckPassword(conf, p, "password", salt, store);
    BcryptRecordAcceptsPassword(p, GetRounds(conf.attrs), salt);
    record, saved := user.password, store.saved;
    conf.Exit(values, originals);
    PatchRestoresNamespace(cfg, values);
    cfgAfter := conf.attrs;
  }
}
