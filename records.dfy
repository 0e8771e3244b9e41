/**
 * The text held in user.password, decoded once into a tagged variant:
 * the unusable-password sentinel, a bcrypt hash behind the "bc$" tag,
 * Django's salted SHA-1 form "sha1$<salt>$<hexdigest>", or anything else.
 */
module Records {
  import opened Wrappers
  import opened Text
  import opened Bcrypt

  /** Django's UNUSABLE_PASSWORD: a value no hash routine produces. */
  const UnusablePassword := "!"
  const BcryptTag := "bc$"
  const Sha1Algorithm := "sha1"

  /** A '$'-separated field of the legacy form (its salt and its hex digest). */
  type Field = s: string | '$' !in s

  datatype Stored =
    | Unusable
    | Bcrypt(payload: Payload)
    | Sha1(salt: Field, hexdigest: Field)
    | Unrecognized(raw: string)

  /**
   * Reads a stored password. Only "!" is the sentinel; a bcrypt record is
   * the tag followed by a well-formed bcrypt hash (a "bc$" record whose hash
   * is malformed is unrecognized); a legacy record has exactly the three
   * '$'-fields "sha1", salt and digest; anything else is kept as it is.
   */
  function Decode(s: string): (r: Stored)
    ensures r.Unusable? <==> s == UnusablePassword
    ensures r.Bcrypt? ==> BcryptTag <= s && DecodePayload(s[|BcryptTag|..]) == Some(r.payload)
    ensures r.Sha1? ==> Split(s, '$') == [Sha1Algorithm, r.salt, r.hexdigest]
    ensures r.Unrecognized? ==> r.raw == s
  {
    if s == UnusablePassword then Unusable
    else if BcryptTag <= s then
      match DecodePayload(s[|BcryptTag|..])
      case Some(h) => Bcrypt(h)
      case None => Unrecognized(s)
    else
      var f := Split(s, '$');
      if |f| == 3 && f[0] == Sha1Algorithm then Sha1(f[1], f[2]) else Unrecognized(s)
  }

  /** Writes a stored password: a bcrypt hash behind the tag, a legacy record as its three '$'-fields. */
  function Encode(r: Stored): (s: string)
    ensures r.Unusable? ==> s == UnusablePassword
    ensures r.Bcrypt? ==> BcryptTag <= s && s[|BcryptTag|..] == EncodePayload(r.payload)
    ensures r.Sha1? ==> Split(s, '$') == [Sha1Algorithm, r.salt, r.hexdigest]
  {
    match r
    case Unusable => UnusablePassword
    case Bcrypt(h) => BcryptTag + EncodePayload(h)
    case Sha1(salt, hexdigest) =>
      SplitJoin([Sha1Algorithm, salt, hexdigest], '$');
      Join([Sha1Algorithm, salt, hexdigest], '$')
    case Unrecognized(raw) => raw
  }

  /** Decoding loses nothing: every stored text is the encoding of its decoding. */
  lemma EncodeDecode(s: string)
    ensures Encode(Decode(s)) == s
  {
    if s != UnusablePassword && BcryptTag <= s {
      var rest := s[|BcryptTag|..];
      if DecodePayload(rest).Some? {
        EncodeDecodePayload(rest);
        assert s == BcryptTag + rest;
      }
    } else if s != UnusablePassword {
      var f := Split(s, '$');
      if |f| == 3 && f[0] == Sha1Algorithm {
        assert f == [Sha1Algorithm, f[1], f[2]];
      }
    }
  }

  /** The legacy form is the three fields joined by '$'. */
  lemma JoinSha1(salt: Field, hexdigest: Field)
    ensures Encode(Sha1(salt, hexdigest)) == Sha1Algorithm + "$" + salt + "$" + hexdigest
  {
    assert [salt, hexdigest][1..] == [hexdigest];
    assert Join([salt, hexdigest], '$') == salt + "$" + hexdigest;
    assert [Sha1Algorithm, salt, hexdigest][1..] == [salt, hexdigest];
  }

  /** Round trip: every record that is not an unrecognized text of a known shape is read back from its encoding. */
  lemma DecodeEncode(r: Stored)
    requires r.Unrecognized? ==> Decode(r.raw).Unrecognized?
    ensures Decode(Encode(r)) == r
  {
    match r
    case Unusable =>
    case Bcrypt(h) =>
      var s := BcryptTag + EncodePayload(h);
      assert s[|BcryptTag|..] == EncodePayload(h);
      DecodeEncodePayload(h);
    case Sha1(salt, hexdigest) =>
      var s := Join([Sha1Algorithm, salt, hexdigest], '$');
      JoinSha1(salt, hexdigest);
      assert s[0] == 's';
      SplitJoin([Sha1Algorithm, salt, hexdigest], '$');
    case Unrecognized(raw) =>
  }

  /** The encoding of a legacy record never carries the bcrypt tag, and is not the sentinel. */
  lemma Sha1Untagged(salt: Field, hexdigest: Field)
    ensures !(BcryptTag <= Encode(Sha1(salt, hexdigest)))
    ensures Encode(Sha1(salt, hexdigest)) != UnusablePassword
  {
    var s := Encode(Sha1(salt, hexdigest));
    JoinSha1(salt, hexdigest);
    assert s[0] == 's';
  }
}
