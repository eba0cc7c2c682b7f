/**
 * Ciphertext framing and decryption dispatch (src-tauri/src/crypto/mod.rs).
 *
 * AES-256-GCM (NIST SP 800-38D), Argon2id (RFC 9106) and base64 (section 4
 * of RFC 4648) are not modelled bit by bit: they are a record of function
 * values, `Primitives`, and what the code relies on about them is the
 * hypothesis `Sound`. What remains, and is verified here, is the byte layout
 * of the two blob formats and the tag, length and fallback logic that picks
 * one of them:
 *   V2 = 0x02 || nonce(12) || ct     (pre-derived key)
 *   V1 = salt(16) || nonce(12) || ct (key derived from a password per blob)
 */
module Crypto {
  import opened Wrappers
  import opened Models

  const SALT_LEN: nat := 16
  const NONCE_LEN: nat := 12
  const KEY_LEN: nat := 32
  /** GCM appends a 128-bit authentication tag to every ciphertext. */
  const TAG_LEN: nat := 16
  const FORMAT_V2: bv8 := 0x02
  /** Shortest blob read as V2: the tag byte, a nonce and one ciphertext byte. */
  const V2_MIN_LEN: nat := 1 + NONCE_LEN + 1
  /** Shortest blob read as V1: a salt, a nonce and one ciphertext byte. */
  const V1_MIN_LEN: nat := SALT_LEN + NONCE_LEN + 1

  type Key = k: Bytes | |k| == KEY_LEN witness seq(KEY_LEN, _ => 0)
  type Salt = s: Bytes | |s| == SALT_LEN witness seq(SALT_LEN, _ => 0)
  type Nonce = n: Bytes | |n| == NONCE_LEN witness seq(NONCE_LEN, _ => 0)

  /** Argon2id cost parameters: memory in KiB, iterations, lanes. */
  datatype Argon2Params = Argon2Params(memoryKb: nat, iterations: nat, parallelism: nat)

  const CURRENT_PARAMS := Argon2Params(16384, 1, 1)
  const LEGACY_PARAMS := Argon2Params(65536, 3, 4)
  const PIN_PARAMS := Argon2Params(4096, 1, 1)

  datatype CryptoError = EncryptionFailed | DecryptionFailed | InvalidFormat | KeyDerivationFailed

  /**
   * The external primitives: AEAD seal and open, the password KDF, and the
   * base64 codec used for the PIN token in the keychain.
   */
  datatype Primitives = Primitives(
    seal: (Key, Nonce, Bytes) -> Bytes,
    open: (Key, Nonce, Bytes) -> Option<Bytes>,
    kdf: (string, Bytes, Argon2Params) -> Key,
    encode64: Bytes -> string,
    decode64: string -> Option<Bytes>)

  /**
   * What the code assumes of the primitives: opening with the sealing key
   * and nonce gives the plaintext back, a ciphertext is its plaintext plus
   * the tag, and base64 decoding inverts encoding.
   */
  ghost predicate Sound(c: Primitives) {
    && (forall k: Key, n: Nonce, p: Bytes :: c.open(k, n, c.seal(k, n, p)) == Some(p))
    && (forall k: Key, n: Nonce, p: Bytes :: |c.seal(k, n, p)| == |p| + TAG_LEN)
    && (forall b: Bytes :: c.decode64(c.encode64(b)) == Some(b))
  }

  /** The bytes of an ASCII string literal (`b"..."` in the source). */
  function AsciiBytes(s: string): (r: Bytes)
    ensures |r| == |s|
  {
    seq(|s|, i requires 0 <= i < |s| => (s[i] as int % 256) as bv8)
  }

  const MASTER_SALT: Bytes := AsciiBytes("access-storage-session-key-salt!")
  const VERIFICATION_PLAINTEXT: Bytes := AsciiBytes("ACCESS_STORAGE_OK")

  function DeriveKey(c: Primitives, password: string, salt: Bytes): Key {
    c.kdf(password, salt, CURRENT_PARAMS)
  }

  /** The session key: the password stretched with a fixed salt. */
  function DeriveMasterKey(c: Primitives, password: string): Key {
    c.kdf(password, MASTER_SALT, CURRENT_PARAMS)
  }

  // Field accessors of the two layouts.

  function V2Nonce(data: Bytes): Nonce
    requires |data| >= 1 + NONCE_LEN
  {
    data[1..1 + NONCE_LEN]
  }

  function V2Body(data: Bytes): Bytes
    requires |data| >= 1 + NONCE_LEN
  {
    data[1 + NONCE_LEN..]
  }

  function V1Salt(data: Bytes): Salt
    requires |data| >= SALT_LEN
  {
    data[..SALT_LEN]
  }

  function V1Nonce(data: Bytes): Nonce
    requires |data| >= SALT_LEN + NONCE_LEN
  {
    data[SALT_LEN..SALT_LEN + NONCE_LEN]
  }

  function V1Body(data: Bytes): Bytes
    requires |data| >= SALT_LEN + NONCE_LEN
  {
    data[SALT_LEN + NONCE_LEN..]
  }

  /** V2 encryption with a pre-derived key and a fresh nonce. */
  function EncryptWithKey(c: Primitives, plaintext: Bytes, key: Key, nonce: Nonce): (r: Bytes)
    ensures |r| == 1 + NONCE_LEN + |c.seal(key, nonce, plaintext)|
    ensures r[0] == FORMAT_V2
    ensures V2Nonce(r) == nonce && V2Body(r) == c.seal(key, nonce, plaintext)
  {
    [FORMAT_V2] + nonce + c.seal(key, nonce, plaintext)
  }

  /** V2-only decryption: None unless the blob is tagged, long enough and opens. */
  function TryDecryptWithKey(c: Primitives, data: Bytes, key: Key): (r: Option<Bytes>)
    ensures |data| < V2_MIN_LEN || data[0] != FORMAT_V2 ==> r == None
    ensures |data| >= V2_MIN_LEN && data[0] == FORMAT_V2 ==> r == c.open(key, V2Nonce(data), V2Body(data))
  {
    if |data| == 0 || data[0] != FORMAT_V2 || |data| < 1 + NONCE_LEN + 1 then None
    else c.open(key, V2Nonce(data), V2Body(data))
  }

  /** V1 encryption: a fresh salt and nonce, the key derived from the password. */
  function Encrypt(c: Primitives, plaintext: Bytes, password: string, salt: Salt, nonce: Nonce): (r: Bytes)
    ensures |r| == SALT_LEN + NONCE_LEN + |c.seal(DeriveKey(c, password, salt), nonce, plaintext)|
    ensures V1Salt(r) == salt && V1Nonce(r) == nonce
    ensures V1Body(r) == c.seal(DeriveKey(c, password, salt), nonce, plaintext)
  {
    salt + nonce + c.seal(DeriveKey(c, password, salt), nonce, plaintext)
  }

  /**
   * V1 decryption: tries the current Argon2id parameters, then the legacy
   * ones; a blob too short to hold salt, nonce and a byte is InvalidFormat.
   */
  function Decrypt(c: Primitives, data: Bytes, password: string): (r: Result<Bytes, CryptoError>)
    ensures |data| < V1_MIN_LEN <==> r == Err(InvalidFormat)
    ensures r.Err? ==> r.error == InvalidFormat || r.error == DecryptionFailed
    ensures r.Ok? ==> |data| >= V1_MIN_LEN
    ensures r.Ok? ==>
              || Some(r.value) == c.open(c.kdf(password, V1Salt(data), CURRENT_PARAMS), V1Nonce(data), V1Body(data))
              || Some(r.value) == c.open(c.kdf(password, V1Salt(data), LEGACY_PARAMS), V1Nonce(data), V1Body(data))
    // the current parameters win when they open the blob
    ensures |data| >= V1_MIN_LEN &&
            c.open(c.kdf(password, V1Salt(data), CURRENT_PARAMS), V1Nonce(data), V1Body(data)).Some? ==>
              r == Ok(c.open(c.kdf(password, V1Salt(data), CURRENT_PARAMS), V1Nonce(data), V1Body(data)).value)
    // otherwise the legacy parameters decide
    ensures |data| >= V1_MIN_LEN &&
            c.open(c.kdf(password, V1Salt(data), CURRENT_PARAMS), V1Nonce(data), V1Body(data)).None? ==>
              r == (if c.open(c.kdf(password, V1Salt(data), LEGACY_PARAMS), V1Nonce(data), V1Body(data)).Some?
                    then Ok(c.open(c.kdf(password, V1Salt(data), LEGACY_PARAMS), V1Nonce(data), V1Body(data)).value)
                    else Err(DecryptionFailed))
  {
    if |data| < SALT_LEN + NONCE_LEN + 1 then Err(InvalidFormat)
    else
      match c.open(c.kdf(password, V1Salt(data), CURRENT_PARAMS), V1Nonce(data), V1Body(data))
      case Some(p) => Ok(p)
      case None =>
        match c.open(c.kdf(password, V1Salt(data), LEGACY_PARAMS), V1Nonce(data), V1Body(data))
        case Some(p) => Ok(p)
        case None => Err(DecryptionFailed)
  }

  /** The branch of `decrypt_auto` taken for a blob whose first byte is 0x02. */
  function DecryptTaggedV2(c: Primitives, data: Bytes, cachedKey: Option<Key>): Result<Bytes, CryptoError>
    requires |data| > 0 && data[0] == FORMAT_V2
  {
    match cachedKey
    case None => Err(DecryptionFailed)
    case Some(key) =>
      if |data| < 1 + NONCE_LEN + 1 then Err(InvalidFormat)
      else
        match c.open(key, V2Nonce(data), V2Body(data))
        case Some(p) => Ok(p)
        case None => Err(DecryptionFailed)
  }

  /** The branch taken otherwise: the cached key on the V1 layout, then the password. */
  function DecryptUntagged(c: Primitives, data: Bytes, cachedKey: Option<Key>, password: Option<string>)
    : Result<Bytes, CryptoError>
  {
    var viaKey :=
      if cachedKey.Some? && |data| >= SALT_LEN + NONCE_LEN + 1
      then c.open(cachedKey.value, V1Nonce(data), V1Body(data))
      else None;
    if viaKey.Some? then Ok(viaKey.value)
    else if password.Some? then Decrypt(c, data, password.value)
    else Err(DecryptionFailed)
  }

  /** Decrypts either format, choosing by the first byte (as written in the source). */
  function DecryptAuto(c: Primitives, data: Bytes, cachedKey: Option<Key>, password: Option<string>)
    : (r: Result<Bytes, CryptoError>)
    ensures |data| == 0 ==> r == Err(InvalidFormat)
    ensures |data| > 0 && data[0] == FORMAT_V2 && cachedKey.None? ==> r == Err(DecryptionFailed)
    ensures |data| > 0 && data[0] == FORMAT_V2 && cachedKey.Some? && |data| < V2_MIN_LEN ==>
              r == Err(InvalidFormat)
    ensures |data| > 0 && data[0] == FORMAT_V2 && r.Ok? ==>
              cachedKey.Some? && c.open(cachedKey.value, V2Nonce(data), V2Body(data)) == Some(r.value)
    ensures |data| >= V2_MIN_LEN && data[0] == FORMAT_V2 && cachedKey.Some? ==>
              r == (if c.open(cachedKey.value, V2Nonce(data), V2Body(data)).Some?
                    then Ok(c.open(cachedKey.value, V2Nonce(data), V2Body(data)).value)
                    else Err(DecryptionFailed))
    ensures |data| > 0 && data[0] != FORMAT_V2 && (cachedKey.None? || |data| < V1_MIN_LEN) ==>
              r == (if password.Some? then Decrypt(c, data, password.value) else Err(DecryptionFailed))
    ensures |data| > 0 && data[0] != FORMAT_V2 && cachedKey.Some? && |data| >= V1_MIN_LEN &&
            c.open(cachedKey.value, V1Nonce(data), V1Body(data)).Some? ==>
              r == Ok(c.open(cachedKey.value, V1Nonce(data), V1Body(data)).value)
    // the key on the V1 layout fails: the password decides
    ensures |data| > 0 && data[0] != FORMAT_V2 && cachedKey.Some? && |data| >= V1_MIN_LEN &&
            c.open(cachedKey.value, V1Nonce(data), V1Body(data)).None? ==>
              r == (if password.Some? then Decrypt(c, data, password.value) else Err(DecryptionFailed))
  {
    if |data| == 0 then Err(InvalidFormat)
    else if data[0] == FORMAT_V2 then DecryptTaggedV2(c, data, cachedKey)
    else DecryptUntagged(c, data, cachedKey, password)
  }

  /**
   * `decrypt_auto` as evidently intended: a tagged blob that the V2 branch
   * cannot decrypt and that is long enough to be V1 also gets the V1 path,
   * so a V1 blob whose random salt happens to start with 0x02 is readable.
   */
  function DecryptAutoCorrected(c: Primitives, data: Bytes, cachedKey: Option<Key>, password: Option<string>)
    : (r: Result<Bytes, CryptoError>)
    ensures |data| == 0 ==> r == Err(InvalidFormat)
    ensures (|data| > 0 && data[0] != FORMAT_V2) || |data| < V1_MIN_LEN ||
            DecryptAuto(c, data, cachedKey, password).Ok? ==>
              r == DecryptAuto(c, data, cachedKey, password)
    ensures |data| >= V1_MIN_LEN && data[0] == FORMAT_V2 && DecryptAuto(c, data, cachedKey, password).Err? ==>
              r == DecryptUntagged(c, data, cachedKey, password)
  {
    if |data| == 0 then Err(InvalidFormat)
    else if data[0] == FORMAT_V2 then
      var tagged := DecryptTaggedV2(c, data, cachedKey);
      if tagged.Ok? || |data| < SALT_LEN + NONCE_LEN + 1 then tagged
      else DecryptUntagged(c, data, cachedKey, password)
    else DecryptUntagged(c, data, cachedKey, password)
  }

  function CreateVerificationToken(c: Primitives, password: string, salt: Salt, nonce: Nonce): Bytes {
    Encrypt(c, VERIFICATION_PLAINTEXT, password, salt, nonce)
  }

  /** A password is right exactly when the token decrypts to the known plaintext. */
  function VerifyPassword(c: Primitives, token: Bytes, password: string): (r: bool)
    ensures r ==> |token| >= V1_MIN_LEN
    ensures r <==> Decrypt(c, token, password) == Ok(VERIFICATION_PLAINTEXT)
  {
    match Decrypt(c, token, password)
    case Ok(p) => p == VERIFICATION_PLAINTEXT
    case Err(_) => false
  }

  /** The PIN token: the V1 layout, with the cheaper PIN Argon2id parameters. */
  function CreatePinVerificationToken(c: Primitives, pin: string, salt: Salt, nonce: Nonce): (r: Bytes)
    ensures |r| == SALT_LEN + NONCE_LEN + |c.seal(c.kdf(pin, salt, PIN_PARAMS), nonce, VERIFICATION_PLAINTEXT)|
    ensures V1Salt(r) == salt && V1Nonce(r) == nonce
    ensures V1Body(r) == c.seal(c.kdf(pin, salt, PIN_PARAMS), nonce, VERIFICATION_PLAINTEXT)
  {
    salt + nonce + c.seal(c.kdf(pin, salt, PIN_PARAMS), nonce, VERIFICATION_PLAINTEXT)
  }

  function VerifyPin(c: Primitives, token: Bytes, pin: string): (r: bool)
    ensures r <==> |token| >= V1_MIN_LEN &&
                   c.open(c.kdf(pin, V1Salt(token), PIN_PARAMS), V1Nonce(token), V1Body(token))
                     == Some(VERIFICATION_PLAINTEXT)
  {
    if |token| < SALT_LEN + NONCE_LEN + 1 then false
    else
      match c.open(c.kdf(pin, V1Salt(token), PIN_PARAMS), V1Nonce(token), V1Body(token))
      case Some(p) => p == VERIFICATION_PLAINTEXT
      case None => false
  }

  // ---------------------------------------------------------------------
  // Properties of the framing under the hypothesis Sound.

  /** A V2 blob is never shorter than the tag byte, nonce and GCM tag. */
  lemma EncryptWithKeyLength(c: Primitives, plaintext: Bytes, key: Key, nonce: Nonce)
    requires Sound(c)
    ensures |EncryptWithKey(c, plaintext, key, nonce)| == 1 + NONCE_LEN + TAG_LEN + |plaintext|
  {
  }

  /** V2 round trip: both V2 readers give back the plaintext under the same key. */
  lemma EncryptWithKeyRoundTrip(c: Primitives, plaintext: Bytes, key: Key, nonce: Nonce, password: Option<string>)
    requires Sound(c)
    ensures TryDecryptWithKey(c, EncryptWithKey(c, plaintext, key, nonce), key) == Some(plaintext)
    ensures DecryptAuto(c, EncryptWithKey(c, plaintext, key, nonce), Some(key), password) == Ok(plaintext)
    ensures DecryptAutoCorrected(c, EncryptWithKey(c, plaintext, key, nonce), Some(key), password) == Ok(plaintext)
  {
    var blob := EncryptWithKey(c, plaintext, key, nonce);
    assert c.open(key, V2Nonce(blob), V2Body(blob)) == Some(plaintext);
  }

  /** V1 round trip: `decrypt(encrypt(p, pw), pw) == p`. */
  lemma EncryptRoundTrip(c: Primitives, plaintext: Bytes, password: string, salt: Salt, nonce: Nonce)
    requires Sound(c)
    ensures |Encrypt(c, plaintext, password, salt, nonce)| == SALT_LEN + NONCE_LEN + TAG_LEN + |plaintext|
    ensures Decrypt(c, Encrypt(c, plaintext, password, salt, nonce), password) == Ok(plaintext)
  {
    var blob := Encrypt(c, plaintext, password, salt, nonce);
    assert c.open(c.kdf(password, V1Salt(blob), CURRENT_PARAMS), V1Nonce(blob), V1Body(blob)) == Some(plaintext);
  }

  /** A V1 blob reaches the password path of `decrypt_auto` when its salt does not start with 0x02. */
  lemma DecryptAutoV1WithPassword(c: Primitives, plaintext: Bytes, password: string, salt: Salt, nonce: Nonce)
    requires Sound(c)
    requires salt[0] != FORMAT_V2
    ensures DecryptAuto(c, Encrypt(c, plaintext, password, salt, nonce), None, Some(password)) == Ok(plaintext)
  {
    var blob := Encrypt(c, plaintext, password, salt, nonce);
    EncryptRoundTrip(c, plaintext, password, salt, nonce);
    assert blob[0] == salt[0];
  }

  /**
   * The source as written: a V1 blob whose random salt starts with 0x02 is
   * taken for V2, and without a cached key it is refused outright, whatever
   * the password.
   */
  lemma V1SaltTagMisrouted(c: Primitives, plaintext: Bytes, password: string, salt: Salt, nonce: Nonce)
    requires salt[0] == FORMAT_V2
    ensures DecryptAuto(c, Encrypt(c, plaintext, password, salt, nonce), None, Some(password)) == Err(DecryptionFailed)
  {
    var blob := Encrypt(c, plaintext, password, salt, nonce);
    assert blob[0] == salt[0];
  }

  /** The corrected dispatch decrypts every V1 blob with its password, whatever its salt. */
  lemma CorrectedDecryptsEveryV1Blob(c: Primitives, plaintext: Bytes, password: string, salt: Salt, nonce: Nonce)
    requires Sound(c)
    ensures DecryptAutoCorrected(c, Encrypt(c, plaintext, password, salt, nonce), None, Some(password)) == Ok(plaintext)
  {
    var blob := Encrypt(c, plaintext, password, salt, nonce);
    EncryptRoundTrip(c, plaintext, password, salt, nonce);
    assert blob[0] == salt[0];
  }

  /** The master-password token verifies under the password that made it. */
  lemma VerificationTokenAccepted(c: Primitives, password: string, salt: Salt, nonce: Nonce)
    requires Sound(c)
    ensures VerifyPassword(c, CreateVerificationToken(c, password, salt, nonce), password)
  {
    EncryptRoundTrip(c, VERIFICATION_PLAINTEXT, password, salt, nonce);
  }

  /** The PIN token verifies under the PIN that made it. */
  lemma PinTokenAccepted(c: Primitives, pin: string, salt: Salt, nonce: Nonce)
    requires Sound(c)
    ensures |CreatePinVerificationToken(c, pin, salt, nonce)| >= V1_MIN_LEN
    ensures VerifyPin(c, CreatePinVerificationToken(c, pin, salt, nonce), pin)
  {
    var token := CreatePinVerificationToken(c, pin, salt, nonce);
    assert c.open(c.kdf(pin, V1Salt(token), PIN_PARAMS), V1Nonce(token), V1Body(token)) == Some(VERIFICATION_PLAINTEXT);
  }
}
