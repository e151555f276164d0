/**
 * Stand-ins for the two libraries the credential logic calls: werkzeug's
 * password hashing and itsdangerous' URL-safe timed serializer.
 *
 * Neither is reimplemented. A password hash is an injective digest of the
 * password under a per-call salt (no one-wayness is claimed), and a signature
 * is an ideal MAC: a value only the signer, holding the key derived from the
 * secret and the salt, produces for exactly that payload and timestamp.
 */
module Security {
  import opened Wrappers

  // ---------------------------------------------------------------- hashing

  /** What `generate_password_hash` stores: the salt it drew and the digest. */
  datatype PasswordHash = PasswordHash(salt: string, digest: seq<int>)

  /**
   * Stand-in for the key-derivation function: injective in the password. It
   * depends on the salt only through its length, not its contents; the salt
   * that matters is the one stored beside the digest.
   */
  function Digest(salt: string, password: string): (d: seq<int>)
    ensures |d| == |password|
  {
    seq(|password|, i requires 0 <= i < |password| => password[i] as int + |salt| + 1)
  }

  /** `check_password_hash(h, password)`: recompute under the stored salt and compare. */
  predicate Check(h: PasswordHash, password: string)
  {
    h.digest == Digest(h.salt, password)
  }

  /** `generate_password_hash(password)`; the random salt is a parameter. */
  function Hash(password: string, salt: string): (h: PasswordHash)
    ensures Check(h, password)
    ensures h.salt == salt
  {
    PasswordHash(salt, Digest(salt, password))
  }

  /** A hash accepts only the password it was made from. */
  lemma {:induction false} CheckOnlyOriginal(password: string, other: string, salt: string)
    requires Check(Hash(password, salt), other)
    ensures other == password
  {
    var d, e := Digest(salt, password), Digest(salt, other);
    assert |other| == |password|;
    forall i | 0 <= i < |password|
      ensures other[i] == password[i]
    {
      assert d[i] == e[i];
    }
  }

  /** Hashing the same password under two different salts gives two different stored values. */
  lemma SaltsSeparateHashes(password: string, salt1: string, salt2: string)
    requires salt1 != salt2
    ensures Hash(password, salt1) != Hash(password, salt2)
  {
  }

  // ---------------------------------------------------------------- signing

  /** The key itsdangerous derives from the secret key and the salt. */
  datatype SigningKey = SigningKey(secret: string, salt: string)

  /** Ideal MAC over the serialized payload and its timestamp. */
  datatype Signature = Mac(key: SigningKey, payload: string, timestamp: int)

  /** A token as `loads` parses it: either well-formed or not even splittable. */
  datatype Token =
    | Signed(payload: string, timestamp: int, signature: Signature)
    | Malformed(text: string)

  /** The exceptions `loads` raises. */
  datatype LoadError = BadSignature | SignatureExpired

  /** The signature only the holder of the secret key and the salt can make for this payload and time. */
  function Sign(secret: string, salt: string, payload: string, timestamp: int): (s: Signature)
  {
    Mac(SigningKey(secret, salt), payload, timestamp)
  }

  /** `URLSafeTimedSerializer(secret).dumps(payload, salt=salt)` at time `now` (whole seconds). */
  function Dumps(secret: string, salt: string, payload: string, now: int): (t: Token)
    ensures t.Signed? && t.payload == payload && t.timestamp == now
  {
    Signed(payload, now, Sign(secret, salt, payload, now))
  }

  /**
   * `URLSafeTimedSerializer(secret).loads(token, salt=salt, max_age=maxAge)` at
   * time `now`: the signature is checked first, then the age; an age above
   * `maxAge` or below zero is `SignatureExpired`.
   */
  function Loads(token: Token, secret: string, salt: string, maxAge: int, now: int): (r: Result<string, LoadError>)
    ensures r.Success? <==>
              token.Signed? && token.signature == Sign(secret, salt, token.payload, token.timestamp)
              && 0 <= now - token.timestamp <= maxAge
    ensures r.Success? ==> r.value == token.payload
    ensures r == Failure(SignatureExpired) ==> token.Signed? && token.signature == Sign(secret, salt, token.payload, token.timestamp)
  {
    match token
    case Malformed(_) => Failure(BadSignature)
    case Signed(payload, timestamp, signature) =>
      if signature != Sign(secret, salt, payload, timestamp) then Failure(BadSignature)
      else
        var age := now - timestamp;
        if age > maxAge || age < 0 then Failure(SignatureExpired)
        else Success(payload)
  }

  /** A token loaded with the key and salt it was made with, within its age, gives back the payload. */
  lemma LoadsDumps(secret: string, salt: string, payload: string, issued: int, maxAge: int, now: int)
    requires issued <= now <= issued + maxAge
    ensures Loads(Dumps(secret, salt, payload, issued), secret, salt, maxAge, now) == Success(payload)
  {
  }

  /** A token made under one salt (purpose) is a bad signature under any other salt. */
  lemma LoadsRejectsOtherSalt(secret: string, salt: string, other: string, payload: string, issued: int, maxAge: int, now: int)
    requires salt != other
    ensures Loads(Dumps(secret, salt, payload, issued), secret, other, maxAge, now) == Failure(BadSignature)
  {
  }

  /** A token made under one secret key is a bad signature under any other secret key. */
  lemma LoadsRejectsOtherSecret(secret: string, other: string, salt: string, payload: string, issued: int, maxAge: int, now: int)
    requires secret != other
    ensures Loads(Dumps(secret, salt, payload, issued), other, salt, maxAge, now) == Failure(BadSignature)
  {
  }

  /** Past its maximum age a genuine token is expired. */
  lemma LoadsRejectsExpired(secret: string, salt: string, payload: string, issued: int, maxAge: int, now: int)
    requires now - issued > maxAge
    ensures Loads(Dumps(secret, salt, payload, issued), secret, salt, maxAge, now) == Failure(SignatureExpired)
  {
  }

  /** Keeping a genuine signature but changing the payload or the timestamp it covers is detected. */
  lemma LoadsRejectsTampered(secret: string, salt: string, payload: string, issued: int,
                             forged: string, forgedTime: int, maxAge: int, now: int)
    requires (forged, forgedTime) != (payload, issued)
    ensures Loads(Signed(forged, forgedTime, Dumps(secret, salt, payload, issued).signature), secret, salt, maxAge, now)
            == Failure(BadSignature)
  {
  }
}
