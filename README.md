# django-bcrypt, modelled in Dafny

django-bcrypt replaces Django's `User.set_password` and `User.check_password`
so that new passwords are hashed with bcrypt, and, when migration is switched
on, a user whose stored record is an older salted SHA-1 hash (or a bcrypt hash
at a work factor other than the configured one) is silently rehashed with
bcrypt and saved the next time they log in with the right password. Its test
suite also carries a small `patch` context manager that overrides settings
for the duration of a `with` block and puts the originals back afterwards,
and a `settings(**kwargs)` wrapper around it.

This project models both parts.

- `patching.dfy` (module `Patching`): the `patch` helper. The settings
  namespace is a `Namespace<V>` object whose `attrs: map<string, V>` field is
  updated in place. `Enter` is the part before `yield` (record originals, set
  or delete each name, in an arbitrary order), `Exit` is the `finally` block,
  and `Patch` runs a body between them. The `NotImplemented` sentinel is
  `None`. The pure functions `Overlay`, `Originals` and `Restored` give the
  namespace during the body, the recorded originals and the namespace
  afterwards; the methods are proved against them.
- `settings.dfy` (module `Settings`): the configuration lookups
  `get_rounds`, `is_enabled`, `migrate_to_bcrypt`, and `settings(**kwargs)`.
  A configuration is a map from name to a boolean or non-negative integer.
- `bcrypt.dfy` (module `Bcrypt`): bcrypt's text form
  `$2a$NN$<22 salt chars><31 digest chars>`, salt and digest in bcrypt's
  base-64 alphabet with their unused low bits zero, its decoder, `hashpw` and the
  check `hashpw(password, stored) == stored`, and `gensalt`'s clamping of the
  work factor into 4..31. The Eksblowfish digest is a function parameter.
- `records.dfy` (module `Records`): the text in `user.password`, decoded once
  into `Unusable` (Django's `'!'`), `Bcrypt` (`'bc$'` + bcrypt hash), `Sha1`
  (`'sha1$salt$hexdigest'`) or `Unrecognized`, with its encoder.
- `passwords.dfy` (module `Passwords`): `bcrypt_set_password` (`NewRecord`,
  `User.SetPassword`), `bcrypt_check_password` (`Verify`, `NeedsRehash`,
  `Check`, `User.CheckPassword`), Django's own `set_password` that the tests
  call as `_set_password` (`LegacyRecord`, `User.LegacySetPassword`), and a
  `UserStore` that stands for the user table (`save`).
- `scenarios.dfy` (module `Scenarios`): each password test case, stated for
  every starting configuration, every choice of hash primitives and every
  random salt. A check made outside a `with` block runs in the starting
  configuration and sees the record as the previous check left it, which
  migration may have rewritten. `MigrateSha1ToBcrypt` runs one test case on
  the objects.
- `text.dfy` (module `Text`): Python's `str.split`/`str.join` on one
  character and the transliteration of passwords before bcrypt.

Parameters in place of what the model cannot see: the Eksblowfish digest and
Django's `get_hexdigest('sha1', salt, raw)` (`Passwords.Primitives`), the
random salts drawn by `bcrypt.gensalt` and by Django (`Passwords.Entropy`),
and whether the test suite is running (`underTest`).

`BCRYPT_ENABLED_UNDER_TEST` is not an override of `BCRYPT_ENABLED`:
`django_bcrypt/tests.py:149-150` expects `is_enabled()` to be false with
`BCRYPT_ENABLED=False` while `settings()` has set
`BCRYPT_ENABLED_UNDER_TEST=True`. Under test, bcrypt is enabled exactly when
both flags are on, and the model follows that.

## Model

| member | source | states |
|---|---|---|
| `Patching.Overlay` | django_bcrypt/tests.py:191-200 | while the body runs, each patched name holds its given value or is absent when given `NotImplemented`; every other name is untouched |
| `Patching.Originals` | django_bcrypt/tests.py:191-195 | the recorded originals cover exactly the patched names, each its value before the patch or `NotImplemented` when absent |
| `Patching.Restored` | django_bcrypt/tests.py:204-210 | after `finally`, a name with an original gets it back, a name that was absent is deleted unless the patch asked for it to be absent, all other names are as the body left them |
| `Patching.PatchRoundTrip` | django_bcrypt/tests.py:180-210 | if the body leaves the patched names alone, afterwards every patched name has its original value or is absent again, and every other name is as the body left it |
| `Patching.PatchRestoresNamespace` | django_bcrypt/tests.py:180-210 | a body that changes nothing leaves the namespace exactly as it was before the `with` |
| `Patching.Lookup` | django_bcrypt/tests.py:192-195 | `getattr` finds exactly the names the namespace has, with their values, and `NotImplemented` otherwise |
| `Patching.LookupExtensional` | django_bcrypt/tests.py:193 | two namespaces that answer every `getattr` alike are equal |
| `Patching.Namespace.constructor` | django_bcrypt/tests.py:181 | the namespace holds the given attributes |
| `Patching.Namespace.Enter` | django_bcrypt/tests.py:184-200 | returns the originals of the patched names and leaves the namespace as `Overlay` of the old one, whatever order the names are visited in |
| `Patching.Namespace.Exit` | django_bcrypt/tests.py:202-210 | leaves the namespace as `Restored`; a name whose deletion would raise must still be present |
| `Patching.Namespace.Patch` | django_bcrypt/tests.py:180-210 | runs the body on the patched namespace and passes on whether it raised; afterwards patched names have their originals and others are as the body left them |
| `Settings.SettingsPatch` | django_bcrypt/tests.py:173-177 | `BCRYPT_ENABLED` and `BCRYPT_ENABLED_UNDER_TEST` are always patched, to `True` unless the caller gives them; caller keys win |
| `Settings.UnderSettings` | django_bcrypt/tests.py:173-177 | inside `settings(**kwargs)` every given name reads as given, the two flags read `True` unless given, and every other name is as before |
| `Settings.SettingsEnableBcrypt` | django_bcrypt/tests.py:173-177 | inside `settings(...)` that does not name the two flags, bcrypt is enabled, under test or not |
| `Settings.GetRounds` | django_bcrypt/tests.py:140-146 | the configured integer, 12 when `BCRYPT_ROUNDS` is absent |
| `Settings.IsEnabled` | django_bcrypt/tests.py:148-162 | outside tests it is `BCRYPT_ENABLED` (default on); under test it is on exactly when `BCRYPT_ENABLED` (default on) and `BCRYPT_ENABLED_UNDER_TEST` (default off) are both on |
| `Settings.MigrateToBcrypt` | django_bcrypt/tests.py:164-170 | the truth of `BCRYPT_MIGRATE`, off when it is absent |
| `Settings.RoundsUnderSettings` | django_bcrypt/tests.py:140-146 | under `settings(BCRYPT_ROUNDS=v)`, `get_rounds()` is `v` (0 included) and 12 for `NotImplemented`, from any starting configuration |
| `Settings.EnabledUnderSettings` | django_bcrypt/tests.py:148-154 | under `settings(BCRYPT_ENABLED=v)` in tests, `is_enabled()` is `v`, and true for `NotImplemented` |
| `Settings.EnabledUnderTestUnderSettings` | django_bcrypt/tests.py:156-162 | under `settings(BCRYPT_ENABLED_UNDER_TEST=v)`, `is_enabled()` is `v`, and false for `NotImplemented` |
| `Settings.MigrateUnderSettings` | django_bcrypt/tests.py:164-170 | under `settings(BCRYPT_MIGRATE=v)`, `migrate_to_bcrypt()` is `v`, and false for `NotImplemented` |
| `Text.Split` | django_bcrypt/tests.py:115-116 | `split('$')` gives at least one field, no field holds the separator, and joining the fields gives back the text |
| `Text.SplitJoin` | django_bcrypt/tests.py:115-116 | splitting joined separator-free fields gives back the fields |
| `Text.SplitField` | django_bcrypt/tests.py:115-116 | a separator-free field followed by the separator splits off as one field |
| `Text.SplitWhole` | django_bcrypt/tests.py:115-116 | a separator-free text splits into itself alone |
| `Text.Fold` | django_bcrypt/tests.py:29-34 | transliteration keeps the password's length, because the modelled table maps one character to one character |
| `Text.FoldKeepsAscii` | django_bcrypt/tests.py:22-27 | plain ASCII passwords reach bcrypt unchanged |
| `Bcrypt.CostValue` | django_bcrypt/tests.py:57-59 | a two-digit field that reads as an accepted work factor is that factor's own two-digit form |
| `Bcrypt.CostFieldReadsBack` | django_bcrypt/tests.py:57-59 | when `hashpw` parses a hash, the two-digit field of every accepted work factor reads back as that factor |
| `Bcrypt.ClampCost` | django_bcrypt/tests.py:79-84 | the work factor `gensalt` uses is the accepted factor (4..31) nearest to the requested rounds, and the rounds themselves when they are in range; this is py-bcrypt's behaviour, of which the tests pin only that 0 rounds still gives a valid hash |
| `Bcrypt.EncodePayload` | django_bcrypt/tests.py:115-116 | the `$`-fields of a hash's text are `''`, the version, the two-digit work factor, and salt plus digest |
| `Bcrypt.DecodePayload` | django_bcrypt/tests.py:57-59 | a text that parses has four `$`-fields, the third being its work factor's two-digit form; texts with a salt or digest outside bcrypt's alphabet, or with non-zero padding bits, do not parse |
| `Bcrypt.HashNew` | django_bcrypt/tests.py:57-65 | `hashpw(password, gensalt(rounds))` is at the clamped work factor with the drawn salt, and `hashpw` of the same password reproduces it |
| `Bcrypt.DecodeEncodePayload` | django_bcrypt/tests.py:57-59 | every bcrypt hash is read back from its text form |
| `Bcrypt.EncodeDecodePayload` | django_bcrypt/tests.py:57-59 | a text that decodes is exactly the encoding of its decoding |
| `Bcrypt.CostFieldOfEncoding` | django_bcrypt/tests.py:115-116 | the third `$`-field of a hash's text, which the test compares as a string, is its two-digit work factor; bcrypt's parser reads it back as that factor |
| `Bcrypt.Hashpw` | django_bcrypt/tests.py:59 | `hashpw(password, setting)` keeps the setting's work factor and salt |
| `Bcrypt.Checkpw` | django_bcrypt/tests.py:57-59 | `hashpw(password, stored) == stored` holds exactly when `stored` parses and its digest is the password's digest under its own work factor and salt |
| `Bcrypt.CheckpwHashNew` | django_bcrypt/tests.py:57-65 | a fresh hash accepts its password, and another password exactly when the digests coincide |
| `Records.Decode` | django_bcrypt/tests.py:88-93 | only `'!'` is the sentinel; a bcrypt record is `bc$` followed by a hash that parses; a legacy record has exactly the fields `sha1`, salt and digest; anything else is kept verbatim |
| `Records.Encode` | django_bcrypt/tests.py:88-93 | the sentinel is `'!'`, a bcrypt record is `bc$` + the hash's text, a legacy record's `$`-fields are `sha1`, salt and digest |
| `Records.EncodeDecode` | django_bcrypt/tests.py:58 | decoding a stored password loses nothing |
| `Records.DecodeEncode` | django_bcrypt/tests.py:88-93 | the sentinel, a bcrypt record and a SHA-1 record are each read back from their text |
| `Records.JoinSha1` | django_bcrypt/tests.py:92-93 | the legacy record is `sha1$` + salt + `$` + hex digest |
| `Records.Sha1Untagged` | django_bcrypt/tests.py:67-71 | a legacy record never starts with `bc$` and is not the sentinel |
| `Passwords.NewRecord` | django_bcrypt/tests.py:56-77 | `None` stores the unusable sentinel; otherwise the record starts with `bc$` exactly when bcrypt is enabled |
| `Passwords.LegacyRecord` | django_bcrypt/tests.py:38 | Django's own `set_password` stores the sentinel for `None`, otherwise a record that reads back as SHA-1 with the salt and the password's salted digest |
| `Passwords.BcryptRecord` | django_bcrypt/tests.py:57-59 | a new bcrypt record starts with `bc$` and reads back as a bcrypt hash at the clamped work factor with the drawn salt |
| `Passwords.NeedsRehash` | django_bcrypt/tests.py:105-128 | a record is kept exactly when it is a bcrypt hash at the configured rounds |
| `Passwords.RehashAfterRewrite` | django_bcrypt/tests.py:79-84 | a freshly rewritten record needs no further rehash exactly when the configured rounds are in 4..31 |
| `Passwords.Check` | django_bcrypt/tests.py:95-136 | the answer is the plain check; the user is saved only after a successful check with migration on, and then holds a bcrypt record; otherwise the record is unchanged |
| `Passwords.LegacyUntagged` | django_bcrypt/tests.py:67-71 | what Django's own `set_password` stores never starts with `bc$` |
| `Passwords.Verify` | django_bcrypt/tests.py:21-40 | only a bcrypt or SHA-1 record can accept a password; the sentinel and unrecognized records accept none |
| `Passwords.BcryptRecordDecodes` | django_bcrypt/tests.py:57-65 | a new bcrypt record is `bc$` + the fresh hash at the clamped work factor |
| `Passwords.VerifyBcryptRecord` | django_bcrypt/tests.py:22-34 | a bcrypt record accepts exactly the passwords whose transliteration has the same digest; equal transliterations are always accepted |
| `Passwords.VerifyLegacyRecord` | django_bcrypt/tests.py:36-40 | a SHA-1 record accepts exactly the passwords with the same salted digest |
| `Passwords.SetThenVerify` | django_bcrypt/tests.py:42-53 | under any configuration, a password that was set is accepted afterwards |
| `Passwords.SetPasswordCost` | django_bcrypt/tests.py:105-116 | with bcrypt enabled the record is a bcrypt hash whose work factor is the configured rounds clamped to 4..31 |
| `Passwords.UnusableRejects` | django_bcrypt/tests.py:73-77 | after setting `None`, no password is accepted |
| `Passwords.FailedCheckKeepsRecord` | django_bcrypt/tests.py:27 | a failed check returns false, keeps the record and saves nothing |
| `Passwords.NoMigrationKeepsRecord` | django_bcrypt/tests.py:130-136 | with migration off the record is never rewritten and the answer is the plain check |
| `Passwords.UpToDateNotRewritten` | django_bcrypt/tests.py:120-128 | a bcrypt record already at the configured rounds is never rewritten |
| `Passwords.MigrationRewrites` | django_bcrypt/tests.py:95-118 | a successful check with migration on of a SHA-1 record, or of a bcrypt record at other rounds, saves a bcrypt record at the configured rounds that still accepts the password |
| `Passwords.SecondCheckOfBcryptRecord` | django_bcrypt/tests.py:22-34 | a first check with an equivalent password succeeds; a second check accepts exactly the passwords whose digest matches under the work factor and salt of the record the first check left |
| `Passwords.SecondCheckOfLegacyRecord` | django_bcrypt/tests.py:36-40 | a first check of a legacy record succeeds and saves exactly when migration is on; a second check is then bcrypt's check of the rewritten record, otherwise the SHA-1 check |
| `Passwords.CheckIdempotent` | django_bcrypt/tests.py:120-128 | with rounds in 4..31, a second check with the same password gives the same answer, keeps the record and saves nothing |
| `Passwords.RewriteRepeatsOutsideCostRange` | django_bcrypt/tests.py:79-84 | with rounds outside 4..31 and migration on, every successful check rewrites and saves the record again |
| `Passwords.UserStore.constructor` | django_bcrypt/tests.py:102 | the store starts empty |
| `Passwords.UserStore.Save` | django_bcrypt/tests.py:102-103 | saving records the user's current password under their username, nothing else changes |
| `Passwords.User.constructor` | django_bcrypt/tests.py:96 | a new user has the given username and an empty password field |
| `Passwords.User.LegacySetPassword` | django_bcrypt/tests.py:38 | stores Django's salted SHA-1 record, or the sentinel for `None` |
| `Passwords.User.SetPassword` | django_bcrypt/tests.py:61-77 | stores `NewRecord` for the configuration read at call time |
| `Passwords.User.CheckPassword` | django_bcrypt/tests.py:95-136 | returns the check's answer; on a migration rewrites the record in place and saves the user, otherwise changes nothing |
| `Scenarios.BcryptPasswordAccepted` | django_bcrypt/tests.py:22-27 | the password set under `settings()` is accepted by a check in the starting configuration; `'invalid'` is then accepted by the record that check left (possibly rewritten with a fresh salt) only on a digest collision |
| `Scenarios.SettingsKeepRounds` | django_bcrypt/tests.py:173-177 | `settings()` without `BCRYPT_ROUNDS` leaves `get_rounds()` as it was |
| `Scenarios.UnicodePasswordAccepted` | django_bcrypt/tests.py:29-34 | a password set with accented letters is accepted in its plain-letter spelling by a check in the starting configuration; `'invalid'` is then accepted by the record that check left only on a digest collision |
| `Scenarios.AccentedFolds` | django_bcrypt/tests.py:32-33 | the accented password and its plain-letter spelling reach bcrypt as the same text |
| `Scenarios.Sha1PasswordAccepted` | django_bcrypt/tests.py:36-40 | a legacy record accepts its password; with migration on in the starting configuration the check rewrites it as bcrypt and `'invalid'` is then rejected unless the bcrypt digests collide, otherwise unless the salted SHA-1 digests collide |
| `Scenarios.ChangedRoundsAccepted` | django_bcrypt/tests.py:42-53 | passwords set at 5 and at 12 rounds are each accepted |
| `Scenarios.SetPasswordIsBcrypt` | django_bcrypt/tests.py:57-65 | the record is `bc$` + a hash with `hashpw(password, hash) == hash` |
| `Scenarios.DisabledNotBcrypt` | django_bcrypt/tests.py:67-71 | with `BCRYPT_ENABLED=False` the record does not start with `bc$` |
| `Scenarios.UnusableStored` | django_bcrypt/tests.py:73-77 | setting `None` stores `UNUSABLE_PASSWORD` |
| `Scenarios.ZeroRoundsStillBcrypt` | django_bcrypt/tests.py:79-84 | with `BCRYPT_ROUNDS=0` the record is still a valid bcrypt hash of the password, at work factor 4 |
| `Scenarios.MigrateSettingsRead` | django_bcrypt/tests.py:97-124 | inside the migration tests' settings bcrypt is enabled and rounds and migrate are the given ones |
| `Scenarios.BcryptMigratesToNewRounds` | django_bcrypt/tests.py:105-118 | set at 10 rounds and checked with 12 configured, the record is rewritten and saved and its third `$`-field is `'12'` |
| `Scenarios.SameRoundsUnchanged` | django_bcrypt/tests.py:120-128 | set and checked at 10 rounds, the record is unchanged and not saved |
| `Scenarios.NoMigrationStaysSha1` | django_bcrypt/tests.py:130-136 | with `BCRYPT_MIGRATE=False` a legacy record is accepted and stays `sha1$` |
| `Scenarios.RecordCostField` | django_bcrypt/tests.py:115-116 | the third `$`-field of a bcrypt record's hash is the clamped work factor in two digits |
| `Scenarios.LegacyRecordIsSha1` | django_bcrypt/tests.py:92-93 | what Django's own `set_password` stores for a password starts with `sha1$` |
| `Scenarios.BcryptRecordAcceptsPassword` | django_bcrypt/tests.py:88-90 | a bcrypt record of `'password'` passes the test suite's `assertBcrypt` |
| `Scenarios.Sha1Migrates` | django_bcrypt/tests.py:95-101 | with migration on, checking a legacy record of `'password'` succeeds and rewrites it as a bcrypt record |
| `Scenarios.MigrateSha1ToBcrypt` | django_bcrypt/tests.py:95-103 | on the objects: the record is `sha1$...` before the check, the check succeeds, the record becomes a bcrypt hash of the password, the store holds it, and the configuration is restored after the block |

## Left out

- `LazyObject` unwrapping in `patch` (django_bcrypt/tests.py:186-189): framework plumbing; the namespace is given directly.
- Python 2 specifics (`iteritems`) and the `TestCase` scaffolding.
- The assignment `settings.BCRYPT_ROUNDS = 0` at django_bcrypt/tests.py:82 sets an attribute on the helper function, not on the configuration, and changes nothing.
- `django_bcrypt/models.py`, which holds `bcrypt_set_password`, `bcrypt_check_password` and the lookups, is not part of this model's sources; their behaviour is modelled from what the tests pin down.
- Eksblowfish and SHA-1 internals: external library code, passed in as functions (`Passwords.Primitives`). No collision-freedom is assumed (no function from all strings to fixed-length digests can have it), so a wrong password is shown to be rejected exactly when its digest differs.
- Passwords.VerifyBcryptRecord: states "a different password is rejected unless its digest collides" rather than "a different password is rejected", for the reason above.
- Passwords.VerifyLegacyRecord: same collision caveat for the salted SHA-1 digest.
- Random salts (`bcrypt.gensalt`, Django's legacy salt) are parameters (`Passwords.Entropy`).
- The transliteration table: only the accented letters used at django_bcrypt/tests.py:32 are folded to their base letter; every other character is kept.
- How the code detects that the test suite is running: a boolean parameter.
- The user table and `User.objects.get`: a map from username to saved password (`Passwords.UserStore`).
- Django's other legacy formats (md5, crypt, untagged hashes) are unrecognized and accept nothing; only `sha1$` records are checked by Django's routine here.
- A `bc$` record whose hash is malformed (wrong shape, characters outside bcrypt's base-64 alphabet, non-zero padding bits) makes bcrypt raise or fail in the library; the model rejects the password instead.
- Bcrypt.Checkpw: only the `$2a$` version is read; hashes of bcrypt's other versions (`$2$`, `$2b$`, `$2y$`) do not parse and accept nothing.
- Configuration values other than booleans and non-negative integers; booleans read as integers are 0 and 1, as in Python.
- Whether `is_enabled()` also gates migration is not pinned by the tests (they migrate only with bcrypt enabled); the model rewrites with bcrypt whenever migration is on and the record is stale.
- Concurrent password operations on one user: last write wins, outside the model.
