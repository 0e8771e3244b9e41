/**
 * The bcrypt primitive as the shim uses it: the modular-crypt text form
 * "$2a$NN$" + 22 salt characters + 31 digest characters, where NN is the
 * two-digit work factor. The Eksblowfish digest itself is not modelled: it is
 * a function passed in by the caller.
 */
module Bcrypt {
  import opened Wrappers
  import opened Text

  const Version := "2a"
  const MinCost: nat := 4
  const MaxCost: nat := 31
  const SaltLength: nat := 22
  const DigestLength: nat := 31

  /** bcrypt's base-64 alphabet: "./", then A-Z, a-z and 0-9. */
  predicate IsBase64(c: char)
  {
    c == '.' || c == '/' || 'A' <= c <= 'Z' || 'a' <= c <= 'z' || '0' <= c <= '9'
  }

  /**
   * The characters that may end an encoded salt: 22 characters carry 132
   * bits for a 16-byte salt, so the last one has its low four bits clear.
   */
  const SaltTail := ".Oeu"

  /**
   * The characters that may end an encoded digest: 31 characters carry 186
   * bits for a 23-byte digest, so the last one has its low two bits clear.
   */
  const DigestTail := ".CGKOSWaeimquy26"

  predicate InAlphabet(s: string)
  {
    forall i :: 0 <= i < |s| ==> IsBase64(s[i])
  }

  /** A salt as bcrypt writes it back: decoding and re-encoding it gives the same text. */
  predicate IsSalt(s: string)
  {
    |s| == SaltLength && InAlphabet(s) && s[SaltLength - 1] in SaltTail
  }

  /** A digest as bcrypt writes it. */
  predicate IsDigest(s: string)
  {
    |s| == DigestLength && InAlphabet(s) && s[DigestLength - 1] in DigestTail
  }

  /** A work factor bcrypt accepts. */
  type Cost = c: nat | MinCost <= c <= MaxCost witness MinCost

  type Salt = s: string | IsSalt(s) witness seq(SaltLength, _ => '.')

  type Digest = s: string | IsDigest(s) witness seq(DigestLength, _ => '.')

  /** Eksblowfish: the digest of a password under a work factor and salt. */
  type Eks = (string, Cost, Salt) -> Digest

  /** A decoded bcrypt hash. */
  datatype Payload = Payload(cost: Cost, salt: Salt, digest: Digest)

  /** Text in bcrypt's alphabet has no '$' separator. */
  lemma AlphabetHasNoSeparator(s: string)
    requires InAlphabet(s)
    ensures '$' !in s
  {
  }

  function Distance(a: int, b: int): nat
  {
    if a <= b then b - a else a - b
  }

  /**
   * gensalt(rounds) clamps the requested work factor into the range bcrypt
   * accepts: the result is the accepted work factor nearest to the request.
   */
  function ClampCost(rounds: nat): (c: Cost)
    ensures MinCost <= rounds <= MaxCost ==> c == rounds
    ensures forall d: Cost :: Distance(c, rounds) <= Distance(d, rounds)
  {
    if rounds < MinCost then MinCost else if rounds > MaxCost then MaxCost else rounds
  }

  function DigitChar(d: nat): char
    requires d < 10
  {
    ('0' as int + d) as char
  }

  predicate IsDigit(c: char)
  {
    '0' <= c <= '9'
  }

  /** The work factor as two decimal digits. */
  function CostField(c: Cost): string
  {
    [DigitChar(c / 10), DigitChar(c % 10)]
  }

  /**
   * bcrypt's reading of the two-digit work-factor field of a hash; None when
   * it is not two decimal digits. A field that reads as an accepted work factor is that factor's
   * own two-digit form.
   */
  function CostValue(field: string): (v: Option<nat>)
    ensures v.Some? && MinCost <= v.value <= MaxCost ==> CostField(v.value) == field
  {
    if |field| == 2 && IsDigit(field[0]) && IsDigit(field[1])
    then Some(10 * (field[0] as int - '0' as int) + (field[1] as int - '0' as int))
    else None
  }

  /** The two-digit field of every accepted work factor reads back as that factor. */
  lemma CostFieldReadsBack(c: Cost)
    ensures CostValue(CostField(c)) == Some(c as nat)
  {
  }

  /** The text form of a bcrypt hash; its '$'-fields are the version, the work factor, and salt plus digest. */
  function EncodePayload(h: Payload): (s: string)
    ensures Split(s, '$') == ["", Version, CostField(h.cost), h.salt + h.digest]
  {
    AlphabetHasNoSeparator(h.salt + h.digest);
    SplitJoin(["", Version, CostField(h.cost), h.salt + h.digest], '$');
    Join(["", Version, CostField(h.cost), h.salt + h.digest], '$')
  }

  /**
   * Parses the text form; None for anything bcrypt would not reproduce from
   * its own decoding. A text that parses has its work factor as the third
   * '$'-field.
   */
  function DecodePayload(s: string): (r: Option<Payload>)
    ensures r.Some? ==> |Split(s, '$')| == 4 && Split(s, '$')[2] == CostField(r.value.cost)
  {
    var f := Split(s, '$');
    if |f| == 4 && f[0] == "" && f[1] == Version && |f[3]| == SaltLength + DigestLength
       && IsSalt(f[3][..SaltLength]) && IsDigest(f[3][SaltLength..]) then
      match CostValue(f[2])
      case Some(c) =>
        if MinCost <= c <= MaxCost then Some(Payload(c, f[3][..SaltLength], f[3][SaltLength..]))
        else None
      case None => None
    else None
  }

  /** Round trip: every bcrypt hash is read back from its text form. */
  lemma DecodeEncodePayload(h: Payload)
    ensures DecodePayload(EncodePayload(h)) == Some(h)
  {
    assert (h.salt + h.digest)[..SaltLength] == h.salt;
    assert (h.salt + h.digest)[SaltLength..] == h.digest;
    CostFieldReadsBack(h.cost);
  }

  /** Decoding loses nothing: a text that decodes is exactly the encoding of what it decodes to. */
  lemma EncodeDecodePayload(s: string)
    requires DecodePayload(s).Some?
    ensures EncodePayload(DecodePayload(s).value) == s
  {
    var f := Split(s, '$');
    var h := DecodePayload(s).value;
    assert h.salt + h.digest == f[3];
    assert CostField(h.cost) == f[2];
    assert f == ["", Version, f[2], f[3]];
    assert Split(EncodePayload(h), '$') == f;
  }

  /**
   * The third '$'-separated field of an encoded hash is its work factor's
   * two-digit text, and bcrypt's own parser reads that text back as the factor.
   */
  lemma CostFieldOfEncoding(h: Payload)
    ensures |Split(EncodePayload(h), '$')| == 4
    ensures Split(EncodePayload(h), '$')[2] == CostField(h.cost)
    ensures CostValue(Split(EncodePayload(h), '$')[2]) == Some(h.cost as nat)
  {
    CostFieldReadsBack(h.cost);
  }

  /** hashpw(password, setting): the digest of the password under the setting's work factor and salt. */
  function Hashpw(eks: Eks, password: string, setting: Payload): (h: Payload)
    ensures h.cost == setting.cost && h.salt == setting.salt
  {
    Payload(setting.cost, setting.salt, eks(password, setting.cost, setting.salt))
  }

  /**
   * hashpw(password, gensalt(rounds)), with gensalt's random salt given as a
   * parameter: a hash at the clamped work factor that hashpw reproduces from
   * the same password.
   */
  function HashNew(eks: Eks, password: string, rounds: nat, salt: Salt): (h: Payload)
    ensures h.cost == ClampCost(rounds) && h.salt == salt
    ensures Hashpw(eks, password, h) == h
  {
    Payload(ClampCost(rounds), salt, eks(password, ClampCost(rounds), salt))
  }

  /**
   * hashpw(password, stored) == stored: a stored hash accepts a password
   * exactly when it parses and its digest is the password's digest under its
   * own work factor and salt. Malformed hashes accept nothing.
   */
  function Checkpw(eks: Eks, password: string, stored: string): (ok: bool)
    ensures ok <==> (DecodePayload(stored).Some? &&
      eks(password, DecodePayload(stored).value.cost, DecodePayload(stored).value.salt) == DecodePayload(stored).value.digest)
  {
    match DecodePayload(stored)
    case None => false
    case Some(h) =>
      EncodeDecodePayload(stored);
      DecodeEncodePayload(Hashpw(eks, password, h));
      EncodePayload(Hashpw(eks, password, h)) == stored
  }

  /** A fresh hash accepts a password exactly when that password's digest under the same factor and salt matches. */
  lemma CheckpwHashNew(eks: Eks, password: string, candidate: string, rounds: nat, salt: Salt)
    ensures Checkpw(eks, candidate, EncodePayload(HashNew(eks, password, rounds, salt))) <==>
      eks(candidate, ClampCost(rounds), salt) == eks(password, ClampCost(rounds), salt)
    ensures Checkpw(eks, password, EncodePayload(HashNew(eks, password, rounds, salt)))
  {
    DecodeEncodePayload(HashNew(eks, password, rounds, salt));
  }
}
