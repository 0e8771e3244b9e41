/**
 * The migration controller: bcrypt_set_password and bcrypt_check_password,
 * which replace the user's own set_password and check_password. New
 * passwords are hashed with bcrypt when it is enabled; a successful check
 * with migration on rewrites a legacy or stale-cost record as a bcrypt
 * record at the current work factor and saves the user.
 */
module Passwords {
  import opened Wrappers
  import opened Text
  import opened Patching
  import opened Settings
  import opened Bcrypt
  import opened Records

  /**
   * The hash functions the shim calls but does not define: bcrypt's
   * Eksblowfish digest, and Django's get_hexdigest('sha1', salt, raw).
   */
  datatype Primitives = Primitives(eks: Eks, hexdigest: (string, string) -> Field)

  /** The random salts one call may draw: bcrypt's gensalt, and Django's legacy salt. */
  datatype Entropy = Entropy(bcryptSalt: Salt, legacySalt: Field)

  /** Django's own set_password (kept as _set_password): salted SHA-1, or the sentinel for None. */
  function LegacyRecord(p: Primitives, raw: Option<string>, salt: Field): (record: string)
    ensures raw.None? ==> record == UnusablePassword
    ensures raw.Some? ==> Decode(record) == Sha1(salt, p.hexdigest(salt, raw.value))
  {
    match raw
    case None => UnusablePassword
    case Some(r) =>
      DecodeEncode(Sha1(salt, p.hexdigest(salt, r)));
      Encode(Sha1(salt, p.hexdigest(salt, r)))
  }

  /**
   * 'bc$' + hashpw(transliterated password, gensalt(rounds)): a record that
   * reads back as a bcrypt hash at the clamped work factor with the drawn salt.
   */
  function BcryptRecord(p: Primitives, raw: string, rounds: nat, salt: Salt): (record: string)
    ensures BcryptTag <= record
    ensures Decode(record).Bcrypt?
    ensures Decode(record).payload.cost == ClampCost(rounds) && Decode(record).payload.salt == salt
  {
    DecodeEncode(Bcrypt(HashNew(p.eks, Fold(raw), rounds, salt)));
    BcryptTag + EncodePayload(HashNew(p.eks, Fold(raw), rounds, salt))
  }

  /**
   * bcrypt_set_password: the value user.password holds afterwards. None gives
   * the sentinel; otherwise the record carries the bcrypt tag exactly when
   * bcrypt is enabled.
   */
  function NewRecord(p: Primitives, cfg: Config, underTest: bool, raw: Option<string>, e: Entropy): (record: string)
    ensures raw.None? ==> record == UnusablePassword
    ensures BcryptTag <= record <==> IsEnabled(cfg, underTest) && raw.Some?
  {
    if !IsEnabled(cfg, underTest) || raw.None? then
      LegacyUntagged(p, raw, e.legacySalt);
      LegacyRecord(p, raw, e.legacySalt)
    else BcryptRecord(p, raw.value, GetRounds(cfg), e.bcryptSalt)
  }

  /** What Django's own set_password stores never starts with the bcrypt tag. */
  lemma LegacyUntagged(p: Primitives, raw: Option<string>, salt: Field)
    ensures !(BcryptTag <= LegacyRecord(p, raw, salt))
  {
    if raw.Some? {
      Sha1Untagged(salt, p.hexdigest(salt, raw.value));
    }
  }

  /**
   * Whether a raw password matches a stored record: bcrypt's check for a
   * bcrypt record (on the transliterated password), Django's SHA-1 check for
   * a legacy one, and false for the sentinel and for anything unrecognized.
   */
  function Verify(p: Primitives, stored: string, raw: string): (ok: bool)
    ensures ok ==> Decode(stored).Bcrypt? || Decode(stored).Sha1?
  {
    match Decode(stored)
    case Bcrypt(_) => Checkpw(p.eks, Fold(raw), stored[|BcryptTag|..])
    case Sha1(salt, hexdigest) => p.hexdigest(salt, raw) == hexdigest
    case Unusable => false
    case Unrecognized(_) => false
  }

  /** A record is rewritten unless it is already a bcrypt hash at the configured work factor. */
  function NeedsRehash(cfg: Config, stored: string): (rehash: bool)
    ensures !rehash <==> Decode(stored).Bcrypt? && Decode(stored).payload.cost == GetRounds(cfg)
  {
    match Decode(stored)
    case Bcrypt(h) => h.cost != GetRounds(cfg)
    case _ => true
  }

  /** The outcome of bcrypt_check_password: the answer, the record afterwards, whether the user was saved. */
  datatype Verdict = Verdict(ok: bool, record: string, saved: bool)

  /**
   * bcrypt_check_password: the answer is the plain check; the user is saved
   * only after a successful check with migration on, and then the record is
   * a bcrypt hash; otherwise the record is left as it was.
   */
  function Check(p: Primitives, cfg: Config, stored: string, raw: string, salt: Salt): (v: Verdict)
    ensures v.ok == Verify(p, stored, raw)
    ensures v.saved ==> v.ok && MigrateToBcrypt(cfg)
    ensures v.saved ==> Decode(v.record).Bcrypt?
    ensures !v.saved ==> v.record == stored
  {
    var ok := Verify(p, stored, raw);
    if ok && MigrateToBcrypt(cfg) && NeedsRehash(cfg, stored)
    then Verdict(true, BcryptRecord(p, raw, GetRounds(cfg), salt), true)
    else Verdict(ok, stored, false)
  }

  // Properties of setting a password

  /** A bcrypt record decodes to the fresh hash, at the clamped work factor. */
  lemma BcryptRecordDecodes(p: Primitives, raw: string, rounds: nat, salt: Salt)
    ensures Decode(BcryptRecord(p, raw, rounds, salt)) == Bcrypt(HashNew(p.eks, Fold(raw), rounds, salt))
    ensures BcryptRecord(p, raw, rounds, salt)[|BcryptTag|..] == EncodePayload(HashNew(p.eks, Fold(raw), rounds, salt))
  {
    DecodeEncode(Bcrypt(HashNew(p.eks, Fold(raw), rounds, salt)));
  }

  /**
   * A bcrypt record accepts exactly the passwords whose transliteration has
   * the same digest as the one it was made from: the password itself, and
   * any other only by a digest collision.
   */
  lemma VerifyBcryptRecord(p: Primitives, pw: string, raw: string, rounds: nat, salt: Salt)
    ensures Verify(p, BcryptRecord(p, pw, rounds, salt), raw) <==>
      p.eks(Fold(raw), ClampCost(rounds), salt) == p.eks(Fold(pw), ClampCost(rounds), salt)
    ensures Fold(raw) == Fold(pw) ==> Verify(p, BcryptRecord(p, pw, rounds, salt), raw)
  {
    BcryptRecordDecodes(p, pw, rounds, salt);
    CheckpwHashNew(p.eks, Fold(pw), Fold(raw), rounds, salt);
  }

  /** A legacy record accepts exactly the passwords with the same salted SHA-1 digest. */
  lemma VerifyLegacyRecord(p: Primitives, pw: string, raw: string, salt: Field)
    ensures Verify(p, LegacyRecord(p, Some(pw), salt), raw) <==> p.hexdigest(salt, raw) == p.hexdigest(salt, pw)
  {
    DecodeEncode(Sha1(salt, p.hexdigest(salt, pw)));
  }

  /** Whatever the configuration, a password that was set is accepted afterwards. */
  lemma SetThenVerify(p: Primitives, cfg: Config, underTest: bool, pw: string, e: Entropy)
    ensures Verify(p, NewRecord(p, cfg, underTest, Some(pw), e), pw)
  {
    if IsEnabled(cfg, underTest) {
      VerifyBcryptRecord(p, pw, pw, GetRounds(cfg), e.bcryptSalt);
    } else {
      VerifyLegacyRecord(p, pw, pw, e.legacySalt);
    }
  }

  /** With bcrypt enabled, the record is a bcrypt hash at the configured work factor (clamped to 4..31). */
  lemma SetPasswordCost(p: Primitives, cfg: Config, underTest: bool, pw: string, e: Entropy)
    requires IsEnabled(cfg, underTest)
    ensures Decode(NewRecord(p, cfg, underTest, Some(pw), e)).Bcrypt?
    ensures Decode(NewRecord(p, cfg, underTest, Some(pw), e)).payload.cost == ClampCost(GetRounds(cfg))
    ensures MinCost <= GetRounds(cfg) <= MaxCost ==>
      Decode(NewRecord(p, cfg, underTest, Some(pw), e)).payload.cost == GetRounds(cfg)
  {
    BcryptRecordDecodes(p, pw, GetRounds(cfg), e.bcryptSalt);
  }

  /** The sentinel accepts no password. */
  lemma UnusableRejects(p: Primitives, cfg: Config, underTest: bool, e: Entropy, raw: string)
    ensures !Verify(p, NewRecord(p, cfg, underTest, None, e), raw)
  {
  }

  // Properties of checking a password

  /** A failed check changes nothing and saves nothing. */
  lemma FailedCheckKeepsRecord(p: Primitives, cfg: Config, stored: string, raw: string, salt: Salt)
    requires !Verify(p, stored, raw)
    ensures Check(p, cfg, stored, raw, salt) == Verdict(false, stored, false)
  {
  }

  /** With migration off, the record is never rewritten, and the answer is the plain check. */
  lemma NoMigrationKeepsRecord(p: Primitives, cfg: Config, stored: string, raw: string, salt: Salt)
    requires !MigrateToBcrypt(cfg)
    ensures Check(p, cfg, stored, raw, salt) == Verdict(Verify(p, stored, raw), stored, false)
  {
  }

  /** A bcrypt record already at the configured work factor is never rewritten. */
  lemma UpToDateNotRewritten(p: Primitives, cfg: Config, stored: string, raw: string, salt: Salt)
    requires Decode(stored).Bcrypt? && Decode(stored).payload.cost == GetRounds(cfg)
    ensures Check(p, cfg, stored, raw, salt) == Verdict(Verify(p, stored, raw), stored, false)
  {
  }

  /**
   * Migration: a successful check with migration on, of a legacy record or
   * of a bcrypt record at another work factor, rewrites the record as a
   * bcrypt hash at the configured work factor, saves it, and the new record
   * still accepts the password.
   */
  lemma MigrationRewrites(p: Primitives, cfg: Config, stored: string, raw: string, salt: Salt)
    requires Verify(p, stored, raw) && MigrateToBcrypt(cfg)
    requires Decode(stored).Sha1? || (Decode(stored).Bcrypt? && Decode(stored).payload.cost != GetRounds(cfg))
    ensures var v := Check(p, cfg, stored, raw, salt);
      && v.ok && v.saved
      && Decode(v.record).Bcrypt?
      && Decode(v.record).payload.cost == ClampCost(GetRounds(cfg))
      && Verify(p, v.record, raw)
  {
    BcryptRecordDecodes(p, raw, GetRounds(cfg), salt);
    VerifyBcryptRecord(p, raw, raw, GetRounds(cfg), salt);
  }

  /**
   * Idempotence: with the configured work factor in bcrypt's range, a
   * second check with the same password and configuration gives the same
   * answer, leaves the record as the first check left it, and saves nothing.
   */
  lemma CheckIdempotent(p: Primitives, cfg: Config, stored: string, raw: string, salt: Salt, salt2: Salt)
    requires MinCost <= GetRounds(cfg) <= MaxCost
    ensures var v := Check(p, cfg, stored, raw, salt);
      Check(p, cfg, v.record, raw, salt2) == Verdict(v.ok, v.record, false)
  {
    var v := Check(p, cfg, stored, raw, salt);
    if v.saved {
      BcryptRecordDecodes(p, raw, GetRounds(cfg), salt);
      VerifyBcryptRecord(p, raw, raw, GetRounds(cfg), salt);
    }
  }

  /**
   * Two checks in a row against a bcrypt record: the first, with a password
   * that transliterates like the one the record was made from, succeeds and
   * may rewrite the record; the second accepts exactly the passwords whose
   * digest matches under the work factor and salt of whichever record the
   * first check left.
   */
  lemma SecondCheckOfBcryptRecord(p: Primitives, cfg: Config, pw: string, first: string, raw: string,
                                  rounds: nat, salt: Salt, salt1: Salt, salt2: Salt)
    requires Fold(first) == Fold(pw)
    ensures var v := Check(p, cfg, BcryptRecord(p, pw, rounds, salt), first, salt1);
      var c := if v.saved then ClampCost(GetRounds(cfg)) else ClampCost(rounds);
      var s := if v.saved then salt1 else salt;
      && v.ok
      && (Check(p, cfg, v.record, raw, salt2).ok <==> p.eks(Fold(raw), c, s) == p.eks(Fold(pw), c, s))
  {
    var v := Check(p, cfg, BcryptRecord(p, pw, rounds, salt), first, salt1);
    VerifyBcryptRecord(p, pw, first, rounds, salt);
    if v.saved {
      VerifyBcryptRecord(p, first, raw, GetRounds(cfg), salt1);
    } else {
      VerifyBcryptRecord(p, pw, raw, rounds, salt);
    }
  }

  /**
   * Two checks in a row against a legacy record: the first, with its own
   * password, succeeds and, with migration on, rewrites it as a bcrypt
   * record; the second is then bcrypt's check of that record, and otherwise
   * Django's SHA-1 check of the legacy one.
   */
  lemma SecondCheckOfLegacyRecord(p: Primitives, cfg: Config, pw: string, raw: string,
                                  legacySalt: Field, salt1: Salt, salt2: Salt)
    ensures var v := Check(p, cfg, LegacyRecord(p, Some(pw), legacySalt), pw, salt1);
      && v.ok && v.saved == MigrateToBcrypt(cfg)
      && (Check(p, cfg, v.record, raw, salt2).ok <==>
          if MigrateToBcrypt(cfg)
          then p.eks(Fold(raw), ClampCost(GetRounds(cfg)), salt1) == p.eks(Fold(pw), ClampCost(GetRounds(cfg)), salt1)
          else p.hexdigest(legacySalt, raw) == p.hexdigest(legacySalt, pw))
  {
    VerifyLegacyRecord(p, pw, pw, legacySalt);
    if MigrateToBcrypt(cfg) {
      VerifyBcryptRecord(p, pw, raw, GetRounds(cfg), salt1);
    } else {
      VerifyLegacyRecord(p, pw, raw, legacySalt);
    }
  }

  /**
   * Outside bcrypt's range of work factors, gensalt clamps, so the new
   * record's cost never equals the configured rounds: with migration on,
   * every successful check rewrites and saves the record again.
   */
  lemma RewriteRepeatsOutsideCostRange(p: Primitives, cfg: Config, stored: string, raw: string, salt: Salt, salt2: Salt)
    requires GetRounds(cfg) < MinCost || GetRounds(cfg) > MaxCost
    requires Verify(p, stored, raw) && MigrateToBcrypt(cfg)
    ensures Check(p, cfg, stored, raw, salt).saved
    ensures Check(p, cfg, Check(p, cfg, stored, raw, salt).record, raw, salt2).saved
  {
    var v := Check(p, cfg, stored, raw, salt);
    BcryptRecordDecodes(p, raw, GetRounds(cfg), salt);
    VerifyBcryptRecord(p, raw, raw, GetRounds(cfg), salt);
    assert Verify(p, v.record, raw);
  }

  /**
   * A freshly written bcrypt record needs no rehash at the rounds it was
   * written with exactly when those rounds are a work factor bcrypt accepts.
   */
  lemma RehashAfterRewrite(p: Primitives, cfg: Config, raw: string, salt: Salt)
    ensures !NeedsRehash(cfg, BcryptRecord(p, raw, GetRounds(cfg), salt)) <==> MinCost <= GetRounds(cfg) <= MaxCost
  {
  }

  /** The user store: username to saved password, the part of the user table the shim writes. */
  class UserStore {
    var saved: map<string, string>

    constructor ()
      ensures saved == map[]
    {
      saved := map[];
    }

    /** user.save() */
    method Save(user: User)
      modifies this
      ensures saved == old(saved)[user.username := user.password]
    {
      saved := saved[user.username := user.password];
    }
  }

  /** A user entity with its password field. */
  class User {
    const username: string
    var password: string

    /** User(username=...): a new user has an empty password field. */
    constructor (username: string)
      ensures this.username == username && password == ""
    {
      this.username := username;
      password := "";
    }

    /** Django's own set_password, which the shim keeps as _set_password. */
    method LegacySetPassword(p: Primitives, raw: Option<string>, salt: Field)
      modifies this`password
      ensures password == LegacyRecord(p, raw, salt)
    {
      match raw {
        case None =>
          password := UnusablePassword;
        case Some(r) =>
          password := Encode(Sha1(salt, p.hexdigest(salt, r)));
      }
    }

    /** bcrypt_set_password, reading the configuration at call time. */
    method SetPassword(conf: Namespace<Setting>, underTest: bool, p: Primitives, raw: Option<string>, e: Entropy)
      modifies this`password
      ensures password == NewRecord(p, conf.attrs, underTest, raw, e)
    {
      if !IsEnabled(conf.attrs, underTest) || raw.None? {
        LegacySetPassword(p, raw, e.legacySalt);
      } else {
        password := BcryptRecord(p, raw.value, GetRounds(conf.attrs), e.bcryptSalt);
      }
    }

    /**
     * bcrypt_check_password, reading the configuration at call time. On a
     * migration the user is saved to the store.
     */
    method CheckPassword(conf: Namespace<Setting>, p: Primitives, raw: string, salt: Salt, store: UserStore) returns (ok: bool)
      modifies this`password, store
      ensures var v := Check(p, conf.attrs, old(password), raw, salt);
        && ok == v.ok
        && password == v.record
        && store.saved == if v.saved then old(store.saved)[username := v.record] else old(store.saved)
    {
      ok := Verify(p, password, raw);
      if ok && MigrateToBcrypt(conf.attrs) && NeedsRehash(conf.attrs, password) {
        password := BcryptRecord(p, raw, GetRounds(conf.attrs), salt);
        store.Save(this);
      }
    }
  }
}
