/**
 * The crypto core (src/crypto/cryptoCore.ts): an in-memory slot holding the
 * session's keys with a per-chat key map, and the framing of encryption,
 * decryption, signature checks and master-key derivation around native
 * primitives. The primitives (the XChaCha20-Poly1305 AEAD, Ed25519, Argon2id
 * and the random source) are function parameters; each returns a failure
 * where the native call would throw.
 */
module CryptoCore {
  import opened Wrappers
  import opened Types
  import opened Text

  // ---------------------------------------------------------------------------
  // Blob framing.

  /** The algorithm label written into every blob. */
  const Algorithm: string := "XChaCha20-Poly1305"

  /** The nonce length requested from the random source, in bytes. */
  const NonceBytes: nat := 24

  /** What the native AEAD encryption returns: the ciphertext and its detached tag. */
  datatype Sealed = Sealed(ciphertext: string, tag: string)

  /** Absent or empty associated data is passed to the primitive as the empty string. */
  function AssociatedData(additionalData: Option<string>): (ad: string)
    ensures additionalData.Some? ==> ad == additionalData.value
    ensures additionalData.None? ==> ad == ""
  {
    additionalData.GetOr("")
  }

  /**
   * encrypt: draws a 24-byte nonce, seals the plaintext under the key and the
   * associated data, and labels the blob with the algorithm. A failure of
   * either primitive becomes "Failed to encrypt data".
   */
  function Encrypt(plaintext: string, key: string, additionalData: Option<string>,
                   randomBytes: nat -> Result<string, string>,
                   aeadEncrypt: (string, string, string, string) -> Result<Sealed, string>)
    : (r: Result<EncryptedData, string>)
    ensures r.Failure? ==> r.error == "Failed to encrypt data"
    ensures r.Success? <==>
              randomBytes(NonceBytes).Success? &&
              aeadEncrypt(plaintext, AssociatedData(additionalData), randomBytes(NonceBytes).value, key).Success?
    ensures r.Success? ==>
              var sealed := aeadEncrypt(plaintext, AssociatedData(additionalData), randomBytes(NonceBytes).value, key).value;
              && r.value.algorithm == Algorithm
              && r.value.nonce == randomBytes(NonceBytes).value
              && r.value.ciphertext == sealed.ciphertext
              && r.value.tag == sealed.tag
  {
    match randomBytes(NonceBytes)
    case Failure(_) => Failure("Failed to encrypt data")
    case Success(nonce) =>
      match aeadEncrypt(plaintext, AssociatedData(additionalData), nonce, key)
      case Failure(_) => Failure("Failed to encrypt data")
      case Success(sealed) => Success(EncryptedData(sealed.ciphertext, nonce, sealed.tag, Algorithm))
  }

  /**
   * decrypt: hands the primitive the ciphertext with the tag appended and the
   * blob's nonce. The blob's algorithm label is not consulted.
   */
  function Decrypt(blob: EncryptedData, key: string, additionalData: Option<string>,
                   aeadDecrypt: (string, string, string, string) -> Result<string, string>)
    : (r: Result<string, string>)
    ensures r.Failure? ==> r.error == "Failed to decrypt data"
    ensures r.Success? <==> aeadDecrypt(blob.ciphertext + blob.tag, AssociatedData(additionalData), blob.nonce, key).Success?
    ensures r.Success? ==> r.value == aeadDecrypt(blob.ciphertext + blob.tag, AssociatedData(additionalData), blob.nonce, key).value
  {
    match aeadDecrypt(blob.ciphertext + blob.tag, AssociatedData(additionalData), blob.nonce, key)
    case Failure(_) => Failure("Failed to decrypt data")
    case Success(plaintext) => Success(plaintext)
  }

  /** Relabelling a blob with another algorithm does not change what it decrypts to. */
  lemma DecryptIgnoresAlgorithm(blob: EncryptedData, otherLabel: string, key: string, additionalData: Option<string>,
                                aeadDecrypt: (string, string, string, string) -> Result<string, string>)
    ensures Decrypt(blob.(algorithm := otherLabel), key, additionalData, aeadDecrypt) == Decrypt(blob, key, additionalData, aeadDecrypt)
  {
  }

  /** The AEAD contract the native library is trusted to keep: opening `ciphertext ++ tag` under the same nonce, key and data gives the plaintext back. */
  ghost predicate AeadOpensSealed(aeadEncrypt: (string, string, string, string) -> Result<Sealed, string>,
                                  aeadDecrypt: (string, string, string, string) -> Result<string, string>)
  {
    forall p, ad, nonce, key :: aeadEncrypt(p, ad, nonce, key).Success? ==>
      aeadDecrypt(aeadEncrypt(p, ad, nonce, key).value.ciphertext + aeadEncrypt(p, ad, nonce, key).value.tag, ad, nonce, key)
        == Success(p)
  }

  /** The framing loses nothing: under a primitive that keeps the AEAD contract, decrypting a blob encrypt produced gives the plaintext back. */
  lemma DecryptEncrypted(plaintext: string, key: string, additionalData: Option<string>,
                         randomBytes: nat -> Result<string, string>,
                         aeadEncrypt: (string, string, string, string) -> Result<Sealed, string>,
                         aeadDecrypt: (string, string, string, string) -> Result<string, string>)
    requires AeadOpensSealed(aeadEncrypt, aeadDecrypt)
    requires Encrypt(plaintext, key, additionalData, randomBytes, aeadEncrypt).Success?
    ensures Decrypt(Encrypt(plaintext, key, additionalData, randomBytes, aeadEncrypt).value, key, additionalData, aeadDecrypt)
            == Success(plaintext)
  {
    var ad, nonce := AssociatedData(additionalData), randomBytes(NonceBytes).value;
    assert aeadEncrypt(plaintext, ad, nonce, key).Success?;
  }

  /** verifySignature: true only when the primitive answers true; a primitive failure reads as false. */
  function VerifySignature(signature: string, data: string, publicKey: string,
                           verifyDetached: (string, string, string) -> Result<bool, string>): (valid: bool)
    ensures valid <==> verifyDetached(signature, data, publicKey) == Success(true)
  {
    match verifyDetached(signature, data, publicKey)
    case Failure(_) => false
    case Success(b) => b
  }

  /** generateSalt's default length, in bytes. */
  const SaltBytes: nat := 32

  /** generateSalt: the random source's bytes, or "Failed to generate salt". */
  function GenerateSalt(length: nat, randomBytes: nat -> Result<string, string>): (r: Result<string, string>)
    ensures r.Failure? ==> r.error == "Failed to generate salt"
    ensures r.Success? <==> randomBytes(length).Success?
    ensures r.Success? ==> r.value == randomBytes(length).value
  {
    match randomBytes(length)
    case Failure(_) => Failure("Failed to generate salt")
    case Success(bytes) => Success(bytes)
  }

  // ---------------------------------------------------------------------------
  // Master-key derivation.

  /** The configuration handed to the native Argon2 call. */
  datatype Argon2Request = Argon2Request(
    password: string,
    salt: string,
    time: nat,
    mem: nat,
    hashLen: nat,
    parallelism: nat,
    kind: nat)

  /**
   * deriveUMK's request: Argon2id (type 2), three passes, 64 MiB, four lanes,
   * 32-byte output, over the password, the email and the clock reading joined by '|'.
   */
  function UmkRequest(password: string, salt: string, email: string, nowMillis: nat): (q: Argon2Request)
    ensures q.time == 3 && q.mem == 65536 && q.hashLen == 32 && q.parallelism == 4 && q.kind == 2
    ensures q.salt == salt
    ensures |q.password| > |password| + |email| + 2
    ensures q.password[..|password| + |email| + 2] == password + "|" + email + "|"
    ensures AllDigits(q.password[|password| + |email| + 2..])
  {
    var input := password + "|" + email + "|" + Decimal(nowMillis);
    assert input[..|password| + |email| + 2] == password + "|" + email + "|";
    assert input[|password| + |email| + 2..] == Decimal(nowMillis);
    Argon2Request(input, salt, 3, 65536, 32, 4, 2)
  }

  /** deriveUMK: the native call's output, or "Failed to derive master key". */
  function DeriveUmk(password: string, salt: string, email: string, nowMillis: nat,
                     argon2: Argon2Request -> Result<string, string>): (r: Result<string, string>)
    ensures r.Failure? ==> r.error == "Failed to derive master key"
    ensures r.Success? <==> argon2(UmkRequest(password, salt, email, nowMillis)).Success?
    ensures r.Success? ==> r.value == argon2(UmkRequest(password, salt, email, nowMillis)).value
  {
    match argon2(UmkRequest(password, salt, email, nowMillis))
    case Failure(_) => Failure("Failed to derive master key")
    case Success(k) => Success(k)
  }

  /** The clock is part of the Argon2 input: two derivations at different instants hash different passwords. */
  lemma UmkRequestDependsOnClock(password: string, salt: string, email: string, t1: nat, t2: nat)
    requires t1 != t2
    ensures UmkRequest(password, salt, email, t1) != UmkRequest(password, salt, email, t2)
  {
    var prefix := password + "|" + email + "|";
    if UmkRequest(password, salt, email, t1) == UmkRequest(password, salt, email, t2) {
      assert prefix + Decimal(t1) == prefix + Decimal(t2);
      CancelPrefix(prefix, Decimal(t1), Decimal(t2));
      DecimalInjective(t1, t2);
    }
  }

  // ---------------------------------------------------------------------------
  // The key store.

  class KeyStore {
    /** The session's keys, or none before initialisation and after clearing. */
    var keys: Option<CryptoKeys>

    constructor()
      ensures keys == None
    {
      keys := None;
    }

    /** initializeKeys: installs the given keys with an empty chat-key map, replacing whatever was there. */
    method InitializeKeys(masterKey: string, signingKeys: KeyPair)
      modifies this
      ensures keys == Some(CryptoKeys(masterKey, signingKeys.publicKey, signingKeys.privateKey, map[]))
      ensures forall c :: GetChatKey(c).None?
    {
      keys := Some(CryptoKeys(masterKey, signingKeys.publicKey, signingKeys.privateKey, map[]));
    }

    /**
     * addChatKey: fails when the store is empty; otherwise sets or overwrites
     * the one entry for the chat and leaves every other entry and key alone.
     */
    method AddChatKey(chatId: string, chatKey: string) returns (r: Outcome<string>)
      modifies this
      ensures old(keys).None? ==> r == Fail("User keys not initialized") && keys == old(keys)
      ensures old(keys).Some? ==>
                r == Pass && keys == Some(old(keys).value.(chatKeys := old(keys).value.chatKeys[chatId := chatKey]))
      ensures r.Pass? ==> GetChatKey(chatId) == (if chatKey == "" then None else Some(chatKey))
      ensures forall d :: d != chatId ==> GetChatKey(d) == old(GetChatKey(d))
      ensures GetPublicKey() == old(GetPublicKey()) && GetPrivateKey() == old(GetPrivateKey())
    {
      if keys.None? {
        return Fail("User keys not initialized");
      }
      var k := keys.value;
      keys := Some(k.(chatKeys := k.chatKeys[chatId := chatKey]));
      r := Pass;
    }

    /** getChatKey: the chat's key, or none when the store is empty, the chat is unknown or its key is the empty string. */
    function GetChatKey(chatId: string): (k: Option<string>)
      reads this
      ensures k.Some? <==> keys.Some? && chatId in keys.value.chatKeys && keys.value.chatKeys[chatId] != ""
      ensures k.Some? ==> k.value == keys.value.chatKeys[chatId]
    {
      if keys.None? || chatId !in keys.value.chatKeys || keys.value.chatKeys[chatId] == "" then None
      else Some(keys.value.chatKeys[chatId])
    }

    /** clearKeys: empties the store, so no key of any kind can be read back. */
    method ClearKeys()
      modifies this
      ensures keys == None
      ensures forall c :: GetChatKey(c).None?
      ensures GetPublicKey().None? && GetPrivateKey().None?
    {
      keys := None;
    }

    /** getPublicKey: the installed public key, or none when the store is empty or the key is the empty string. */
    function GetPublicKey(): (k: Option<string>)
      reads this
      ensures k.Some? <==> keys.Some? && keys.value.publicKey != ""
      ensures k.Some? ==> k.value == keys.value.publicKey
    {
      if keys.Some? && keys.value.publicKey != "" then Some(keys.value.publicKey) else None
    }

    /** getPrivateKey: the installed private key, or none when the store is empty or the key is the empty string. */
    function GetPrivateKey(): (k: Option<string>)
      reads this
      ensures k.Some? <==> keys.Some? && keys.value.privateKey != ""
      ensures k.Some? ==> k.value == keys.value.privateKey
    {
      if keys.Some? && keys.value.privateKey != "" then Some(keys.value.privateKey) else None
    }
  }

  /** A key added after initialisation reads back, and the keys the store was initialised with are untouched. */
  method AddedKeyReadsBack(store: KeyStore, masterKey: string, signingKeys: KeyPair, chatId: string, chatKey: string)
    returns (r: Outcome<string>)
    requires chatKey != ""
    modifies store
    ensures r == Pass
    ensures store.GetChatKey(chatId) == Some(chatKey)
    ensures store.keys.Some? && store.keys.value.masterKey == masterKey
    ensures store.keys.value.publicKey == signingKeys.publicKey && store.keys.value.privateKey == signingKeys.privateKey
  {
    store.InitializeKeys(masterKey, signingKeys);
    r := store.AddChatKey(chatId, chatKey);
  }
}
