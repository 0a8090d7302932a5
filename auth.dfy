/**
 * The authentication service (src/services/authService.ts): registration,
 * login, biometric setup and logout as steps over the service's state, the
 * local storage items it writes, and the crypto core, identifier allocator
 * and Firebase ledger it drives.
 *
 * Every outside call whose outcome the code cannot predict is an input,
 * supplied for each call site: the Google and Firebase sign-ins, the random
 * source, the clocks, the signing key pair, the device fingerprint, the
 * keychain write and the biometric sensor. The Argon2 hash and the AEAD
 * cipher are fixed function parameters of the service.
 */
module Auth {
  import opened Wrappers
  import opened Types
  import CryptoCore
  import AtasId
  import Ledger

  // ---------------------------------------------------------------------------
  // Stored shapes and pure transitions.

  /** The state of a service that nobody has signed in to. */
  const InitialAuthState: AuthState := AuthState(false, None, None, None, None, false, false)

  const AccessToken: string := "mock_access_token"
  const RefreshToken: string := "mock_refresh_token"

  /** The plaintext sealed under the master key to check a password later. */
  const TestPlaintext: string := "test_verification_data"

  const BiometricType: string := "TouchID/FaceID"

  /** The five fields saveAuthState writes (ATAS_AUTH_STATE). */
  datatype SavedAuthState = SavedAuthState(
    isAuthenticated: bool,
    accessToken: Option<string>,
    refreshToken: Option<string>,
    biometricAvailable: bool,
    biometricEnabled: bool)

  /** The key material registration stores (ATAS_ENCRYPTED_KEYS). */
  datatype KeyBundle = KeyBundle(publicKey: string, encryptedPrivateKey: EncryptedData, salt: string, testData: EncryptedData)

  /** The biometric key registration (ATAS_BIOMETRIC_SETUP). */
  datatype BiometricSetup = BiometricSetup(publicKey: string, biometricKeyAlias: string, biometricType: string)

  function Snapshot(s: AuthState): SavedAuthState
  {
    SavedAuthState(s.isAuthenticated, s.accessToken, s.refreshToken, s.biometricAvailable, s.biometricEnabled)
  }

  /** loadAuthState's rebuilt state: the saved fields, the stored user and device, and biometrics enabled iff a setup is stored. */
  function Restored(saved: SavedAuthState, user: User, device: Device, hasBiometricSetup: bool): AuthState
  {
    AuthState(saved.isAuthenticated, Some(user), Some(device), saved.accessToken, saved.refreshToken,
              saved.biometricAvailable, hasBiometricSetup)
  }

  /** The saved state carries nothing about the user or the device. */
  lemma SnapshotOmitsIdentity(s: AuthState, user: Option<User>, device: Option<Device>)
    ensures Snapshot(s.(user := user, device := device)) == Snapshot(s)
  {
  }

  /** Saving a signed-in state and loading it back with the stored user and device gives the same state. */
  lemma RestoreSnapshot(s: AuthState)
    requires s.user.Some? && s.device.Some?
    ensures Restored(Snapshot(s), s.user.value, s.device.value, s.biometricEnabled) == s
  {
  }

  /** The state logout leaves: the initial state, except that the sensor's availability is kept. */
  function LoggedOut(s: AuthState): (r: AuthState)
    ensures r == InitialAuthState.(biometricAvailable := s.biometricAvailable)
    ensures !r.isAuthenticated && r.user.None? && r.device.None? && r.accessToken.None? && r.refreshToken.None?
    ensures !r.biometricEnabled && r.biometricAvailable == s.biometricAvailable
  {
    AuthState(false, None, None, None, None, s.biometricAvailable, false)
  }

  /** Logging out twice is logging out once. */
  lemma LogoutIdempotent(s: AuthState)
    ensures LoggedOut(LoggedOut(s)) == LoggedOut(s)
  {
  }

  /** JavaScript truthiness of an optional string: present and not empty. */
  predicate Present(o: Option<string>)
  {
    o.Some? && o.value != ""
  }

  /** The key alias of a user's biometric key. */
  function BiometricAlias(userId: string): (alias: string)
    ensures |alias| == 15 + |userId| && alias[..15] == "ATAS_BIOMETRIC_" && alias[15..] == userId
  {
    "ATAS_BIOMETRIC_" + userId
  }

  // ---------------------------------------------------------------------------
  // Inputs.

  /** The native primitives the service's crypto calls reach. */
  datatype Natives = Natives(
    argon2: CryptoCore.Argon2Request -> Result<string, string>,
    aeadEncrypt: (string, string, string, string) -> Result<CryptoCore.Sealed, string>,
    aeadDecrypt: (string, string, string, string) -> Result<string, string>)

  datatype GoogleAccount = GoogleAccount(email: string, name: string, photo: Option<string>, id: string)

  datatype FirebaseAccount = FirebaseAccount(uid: string, emailVerified: bool)

  /** What the device reports about itself for a session. */
  datatype DeviceSystem = DeviceSystem(platform: string, version: string, model: string, appVersion: string)

  datatype RegistrationData = RegistrationData(
    email: string,
    phoneNumber: string,
    displayName: string,
    countryName: string,
    password: string,
    deviceName: string,
    deviceType: string,
    deviceOs: string)

  /** The outcomes of registration's outside calls, in the order the steps make them. */
  datatype RegisterEnv = RegisterEnv(
    google: Option<GoogleAccount>,          // Google sign-in; none on any sign-in error
    firebase: Result<FirebaseAccount, string>,
    currentYear: nat,
    idRandom: Option<seq<bv8>>,             // the access code's random bytes; none when the source fails
    idMillis: nat,
    counterSaved: bool,
    recordSaved: bool,
    saltSource: nat -> Result<string, string>,
    umkMillis: nat,
    signingKeys: Result<KeyPair, string>,
    fingerprint: string,
    deviceKeyNonce: nat -> Result<string, string>,
    userKeyNonce: nat -> Result<string, string>,
    storageSalt: nat -> Result<string, string>,
    storedKeyNonce: nat -> Result<string, string>,
    testDataNonce: nat -> Result<string, string>,
    keychainSaved: bool,
    system: DeviceSystem,
    nowSeconds: int)

  datatype LoginCredentials = LoginCredentials(
    email: string,
    password: Option<string>,
    biometricData: Option<string>,
    deviceFingerprint: string)

  /** The sensor's answer to a signature prompt. */
  datatype SensorSignature = SensorSignature(success: bool, signature: Option<string>)

  /** The outcomes of login's outside calls. */
  datatype LoginEnv = LoginEnv(
    fingerprint: string,
    sensor: Result<SensorSignature, string>,
    verifyMillis: nat,
    loadMillis: nat,
    system: DeviceSystem,
    nowSeconds: int)

  datatype LogoutEnv = LogoutEnv(
    googleSignedIn: Result<bool, string>,
    googleSignOut: Outcome<string>,
    nowSeconds: int,
    today: string)

  /** The Google calls of logout do not throw: it is not signed in, or it is and signing out works. */
  predicate GoogleSignOutCompletes(env: LogoutEnv)
  {
    env.googleSignedIn.Success? && (!env.googleSignedIn.value || env.googleSignOut.Pass?)
  }

  /** The authentication factor login tries. */
  datatype Factor = BiometricFactor | PasswordFactor(password: string) | NoFactor

  /** Biometrics when the caller sent biometric data and biometrics are enabled; else the password if one was sent; else none. */
  function ChooseFactor(cred: LoginCredentials, biometricEnabled: bool): (f: Factor)
    ensures f == BiometricFactor <==> Present(cred.biometricData) && biometricEnabled
    ensures f.PasswordFactor? <==> !(Present(cred.biometricData) && biometricEnabled) && Present(cred.password)
    ensures f.PasswordFactor? ==> f.password == cred.password.value
  {
    if Present(cred.biometricData) && biometricEnabled then BiometricFactor
    else if Present(cred.password) then PasswordFactor(cred.password.value)
    else NoFactor
  }

  /** Sent biometric data wins over a sent password whenever biometrics are enabled. */
  lemma BiometricTakesPrecedence(cred: LoginCredentials)
    requires Present(cred.biometricData) && Present(cred.password)
    ensures ChooseFactor(cred, true) == BiometricFactor
    ensures ChooseFactor(cred, false) == PasswordFactor(cred.password.value)
  {
  }

  /** Both sign-ins succeeded, and the Google account's email is the one being registered. */
  predicate SignInsMatch(data: RegistrationData, env: RegisterEnv)
  {
    env.google.Some? && env.firebase.Success? && env.google.value.email == data.email
  }

  /** The identifier registration allocates for user number `userNumber`. */
  function RegisteredId(data: RegistrationData, env: RegisterEnv, userNumber: int): string
  {
    AtasId.RenderId(AtasId.CountryCode(data.countryName), env.currentYear, userNumber)
  }

  /** The identifier record registration's allocation stores for user number `userNumber`. */
  function NewIdRecord(data: RegistrationData, env: RegisterEnv, userNumber: int): AtasId.IdRecord
  {
    AtasId.NewRecord(data.email, data.phoneNumber, AtasId.CountryCode(data.countryName), env.currentYear, userNumber,
                     env.idRandom, env.idMillis)
  }

  /** The records registration builds before it writes anything. */
  datatype Prepared = Prepared(user: User, device: Device, masterKey: string, signingKeys: KeyPair)

  /**
   * Registration's step 5 to 7 for the identifier `atasId`: a salt, the
   * master key derived from the password, a signing key pair, and the device
   * and user records, each carrying the private key sealed under the master
   * key (sealed twice, with two nonces). Any failure reads "Registration failed".
   */
  function PrepareRegistration(data: RegistrationData, env: RegisterEnv, google: GoogleAccount, account: FirebaseAccount,
                               atasId: string, natives: Natives): (r: Result<Prepared, string>)
    ensures r.Failure? ==> r.error == "Registration failed"
    ensures r.Success? <==>
              && env.saltSource(CryptoCore.SaltBytes).Success?
              && env.signingKeys.Success?
              && var masterKey := CryptoCore.DeriveUmk(data.password, env.saltSource(CryptoCore.SaltBytes).value, data.email,
                                                       env.umkMillis, natives.argon2);
                 && masterKey.Success?
                 && CryptoCore.Encrypt(env.signingKeys.value.privateKey, masterKey.value, None, env.deviceKeyNonce, natives.aeadEncrypt).Success?
                 && CryptoCore.Encrypt(env.signingKeys.value.privateKey, masterKey.value, None, env.userKeyNonce, natives.aeadEncrypt).Success?
    ensures r.Success? ==>
              var p := r.value;
              && p.masterKey == CryptoCore.DeriveUmk(data.password, env.saltSource(CryptoCore.SaltBytes).value, data.email,
                                                   env.umkMillis, natives.argon2).value
              && p.signingKeys == env.signingKeys.value
              && p.device == Device(env.fingerprint, data.deviceName, data.deviceType, data.deviceOs, p.signingKeys.publicKey,
                                    CryptoCore.Encrypt(p.signingKeys.privateKey, p.masterKey, None, env.deviceKeyNonce, natives.aeadEncrypt).value,
                                    true)
              && p.user == User(atasId, data.email, data.phoneNumber, data.displayName,
                                if Present(google.photo) then google.photo else None,
                                p.signingKeys.publicKey, env.fingerprint, true, false, account.uid,
                                CryptoCore.Encrypt(p.signingKeys.privateKey, p.masterKey, None, env.userKeyNonce, natives.aeadEncrypt).value,
                                account.emailVerified)
  {
    var salt := CryptoCore.GenerateSalt(CryptoCore.SaltBytes, env.saltSource);
    if salt.Failure? then Failure("Registration failed")
    else
      var masterKey := CryptoCore.DeriveUmk(data.password, salt.value, data.email, env.umkMillis, natives.argon2);
      if masterKey.Failure? || env.signingKeys.Failure? then Failure("Registration failed")
      else
        var keys := env.signingKeys.value;
        var deviceKey := CryptoCore.Encrypt(keys.privateKey, masterKey.value, None, env.deviceKeyNonce, natives.aeadEncrypt);
        var userKey := CryptoCore.Encrypt(keys.privateKey, masterKey.value, None, env.userKeyNonce, natives.aeadEncrypt);
        if deviceKey.Failure? || userKey.Failure? then Failure("Registration failed")
        else
          var device := Device(env.fingerprint, data.deviceName, data.deviceType, data.deviceOs, keys.publicKey, deviceKey.value, true);
          var photo := if Present(google.photo) then google.photo else None;
          var user := User(atasId, data.email, data.phoneNumber, data.displayName, photo, keys.publicKey,
                           device.id, true, false, account.uid, userKey.value, account.emailVerified);
          Success(Prepared(user, device, masterKey.value, keys))
  }

  /**
   * The key bundle storeUserData writes: a freshly drawn salt (not the one
   * the master key came from), the private key and the test plaintext each
   * sealed under the master key, and the public key in the clear.
   */
  function NewKeyBundle(masterKey: string, signingKeys: KeyPair, saltSource: nat -> Result<string, string>,
                        keyNonce: nat -> Result<string, string>, testNonce: nat -> Result<string, string>,
                        aeadEncrypt: (string, string, string, string) -> Result<CryptoCore.Sealed, string>)
    : (r: Result<KeyBundle, string>)
    ensures var salt := CryptoCore.GenerateSalt(CryptoCore.SaltBytes, saltSource);
            var sealedKey := CryptoCore.Encrypt(signingKeys.privateKey, masterKey, None, keyNonce, aeadEncrypt);
            var sealedTest := CryptoCore.Encrypt(TestPlaintext, masterKey, None, testNonce, aeadEncrypt);
            && (r.Success? <==> salt.Success? && sealedKey.Success? && sealedTest.Success?)
            && (r.Success? ==> r.value == KeyBundle(signingKeys.publicKey, sealedKey.value, salt.value, sealedTest.value))
  {
    var salt := CryptoCore.GenerateSalt(CryptoCore.SaltBytes, saltSource);
    var sealedKey := CryptoCore.Encrypt(signingKeys.privateKey, masterKey, None, keyNonce, aeadEncrypt);
    var sealedTest := CryptoCore.Encrypt(TestPlaintext, masterKey, None, testNonce, aeadEncrypt);
    if salt.Failure? || sealedKey.Failure? || sealedTest.Failure? then Failure("Failed to store user data securely")
    else Success(KeyBundle(signingKeys.publicKey, sealedKey.value, salt.value, sealedTest.value))
  }

  /** Under a cipher that keeps the AEAD contract, the bundle's two blobs open under the master key to the private key and the test plaintext. */
  lemma BundleOpensUnderMasterKey(masterKey: string, signingKeys: KeyPair, saltSource: nat -> Result<string, string>,
                                  keyNonce: nat -> Result<string, string>, testNonce: nat -> Result<string, string>,
                                  natives: Natives)
    requires CryptoCore.AeadOpensSealed(natives.aeadEncrypt, natives.aeadDecrypt)
    requires NewKeyBundle(masterKey, signingKeys, saltSource, keyNonce, testNonce, natives.aeadEncrypt).Success?
    ensures var bundle := NewKeyBundle(masterKey, signingKeys, saltSource, keyNonce, testNonce, natives.aeadEncrypt).value;
            && CryptoCore.Decrypt(bundle.encryptedPrivateKey, masterKey, None, natives.aeadDecrypt) == Success(signingKeys.privateKey)
            && CryptoCore.Decrypt(bundle.testData, masterKey, None, natives.aeadDecrypt) == Success(TestPlaintext)
  {
    CryptoCore.DecryptEncrypted(signingKeys.privateKey, masterKey, None, keyNonce, natives.aeadEncrypt, natives.aeadDecrypt);
    CryptoCore.DecryptEncrypted(TestPlaintext, masterKey, None, testNonce, natives.aeadEncrypt, natives.aeadDecrypt);
  }

  // ---------------------------------------------------------------------------
  // What signing in and out does to the ledger.

  /** The session device a sign-in records: the platform details and the device identifier. */
  function SignInDevice(system: DeviceSystem, deviceId: string): Ledger.SessionDevice
  {
    Ledger.SessionDevice(system.platform, system.version, system.model, system.appVersion, deviceId)
  }

  /** registerUser's ledger steps: the new profile's document, then a session. */
  function RegisteredLedger(d: Ledger.Store, user: User, device: Ledger.SessionDevice, now: int): Ledger.Store
  {
    Ledger.SessionStarted(Ledger.ProfileCreated(d, user, now), device, now)
  }

  /**
   * After registration the new user is signed in and stored online, a new
   * active session for them sits at the next document id with the login
   * counted on it, and the events end with that login. The profile update
   * before it is tracked only when someone was signed in already, and then
   * counts on that user's current session. The day's statistics and the
   * calls are untouched.
   */
  lemma RegisteredLedgerEffects(d: Ledger.Store, user: User, device: Ledger.SessionDevice, now: int)
    requires d.currentSession.Some? ==> d.currentSession.value.id < |d.sessions|
    ensures var r := RegisteredLedger(d, user, device, now);
            var started := Ledger.UserSession(|d.sessions|, user.id, user.id, now, None, None, device, true, now, 0);
            var login := Ledger.ActivityEvent(user.id, user.id, Ledger.Login, now, map[], Ledger.DefaultDeviceInfo);
            var created :=
              if d.currentUser.None? then []
              else [Ledger.ActivityEvent(d.currentUser.value.id, d.currentUser.value.id, Ledger.ProfileUpdated, now,
                                         Ledger.ProfileCreatedMetadata, Ledger.DefaultDeviceInfo)];
            var before :=
              if d.currentUser.Some? && d.currentSession.Some? then
                d.sessions[d.currentSession.value.id := Ledger.Touched(d.sessions[d.currentSession.value.id], now)]
              else d.sessions;
            && r.currentUser == Some(user)
            && r.users == d.users[user.id := user.(isOnline := true)]
            && r.currentSession == Some(started)
            && r.sessions == before + [Ledger.Touched(started, now)]
            && r.events == d.events + created + [login]
            && r.dailyStats == d.dailyStats && r.calls == d.calls
  {
    var created := Ledger.ProfileCreated(d, user, now);
    Ledger.ProfileCreatedEffects(d, user, now);
    Ledger.SessionStartedEffects(created, device, now);
    var online := user.(isOnline := true);
    assert created.users[user.id] == online;
    assert d.users[user.id := online][user.id := online.(isOnline := true)] == d.users[user.id := online];
  }

  /** loginUser's first ledger step: a biometric login is tracked before the keys are loaded. */
  function LoginTracked(d: Ledger.Store, factor: Factor, now: int): Ledger.Store
  {
    if factor == BiometricFactor then Ledger.Tracked(d, Ledger.BiometricEnabled, None, None, now) else d
  }

  /** loginUser's ledger steps once the keys are loaded: the profile read, a session, and the profile marked online. */
  function LoginLedger(d: Ledger.Store, atasId: string, device: Ledger.SessionDevice, now: int): Ledger.Store
  {
    Ledger.ProfileChanged(Ledger.SessionStarted(Ledger.ProfileRead(d, atasId), device, now),
                          atasId, Ledger.ProfileUpdates(Some(true), None), now)
  }

  /**
   * A login with a stored profile signs that profile in and marks it online,
   * starts an active session for it at the next document id (with the login
   * and the profile update counted on it) and tracks the login and then the
   * update. Without a stored profile only the session start remains, for
   * whoever was signed in before, which is nothing when nobody was.
   */
  lemma LoginLedgerEffects(d: Ledger.Store, atasId: string, device: Ledger.SessionDevice, now: int)
    requires d.currentSession.Some? ==> d.currentSession.value.id < |d.sessions|
    requires atasId in d.users ==> d.users[atasId].id == atasId
    ensures atasId in d.users ==>
              var r := LoginLedger(d, atasId, device, now);
              var u := d.users[atasId];
              var started := Ledger.UserSession(|d.sessions|, atasId, atasId, now, None, None, device, true, now, 0);
              && r.currentUser == Some(u)
              && r.users == d.users[atasId := u.(isOnline := true)]
              && r.currentSession == Some(started)
              && r.sessions == d.sessions + [Ledger.Touched(Ledger.Touched(started, now), now)]
              && r.events == d.events + [Ledger.ActivityEvent(atasId, atasId, Ledger.Login, now, map[], Ledger.DefaultDeviceInfo),
                                         Ledger.ActivityEvent(atasId, atasId, Ledger.ProfileUpdated, now,
                                                              map["newValue" := Ledger.Obj(map["isOnline" := Ledger.Flag(true)])],
                                                              Ledger.DefaultDeviceInfo)]
              && r.dailyStats == d.dailyStats && r.calls == d.calls
    ensures atasId !in d.users ==> LoginLedger(d, atasId, device, now) == Ledger.SessionStarted(d, device, now)
    ensures atasId !in d.users && d.currentUser.None? ==> LoginLedger(d, atasId, device, now) == d
  {
    if atasId in d.users {
      var u := d.users[atasId];
      var read := Ledger.ProfileRead(d, atasId);
      var started := Ledger.SessionStarted(read, device, now);
      Ledger.SessionStartedEffects(read, device, now);
      Ledger.ProfileChangedEffects(started, atasId, Ledger.ProfileUpdates(Some(true), None), now);
      var s := Ledger.UserSession(|d.sessions|, atasId, atasId, now, None, None, device, true, now, 0);
      assert (d.sessions + [Ledger.Touched(s, now)])[|d.sessions| := Ledger.Touched(Ledger.Touched(s, now), now)]
          == d.sessions + [Ledger.Touched(Ledger.Touched(s, now), now)];
      var login := Ledger.ActivityEvent(atasId, atasId, Ledger.Login, now, map[], Ledger.DefaultDeviceInfo);
      var update := Ledger.ActivityEvent(atasId, atasId, Ledger.ProfileUpdated, now,
                                         map["newValue" := Ledger.Obj(Ledger.UpdatesMetadata(Ledger.ProfileUpdates(Some(true), None)))],
                                         Ledger.DefaultDeviceInfo);
      assert Ledger.UpdatesMetadata(Ledger.ProfileUpdates(Some(true), None)) == map["isOnline" := Ledger.Flag(true)];
      assert d.events + [login] + [update] == d.events + [login, update];
    } else if d.currentUser.Some? {
      Ledger.SessionStartedEffects(d, device, now);
    }
  }

  /** logout's ledger steps: a signed-in user marked offline and the session ended; nothing without a user. */
  function LogoutLedger(d: Ledger.Store, user: Option<User>, now: int, today: string): Ledger.Store
  {
    if user.Some? then Ledger.SessionEnded(Ledger.OnlineSet(d, user.value.id, false), now, today) else d
  }

  /**
   * Logging out a signed-in user leaves their profile, if stored, offline,
   * keeps the set of stored profiles, and changes nothing but the online
   * flag when the ledger has no current session or no user.
   */
  lemma LogoutLedgerOffline(d: Ledger.Store, user: User, now: int, today: string)
    requires d.currentSession.Some? ==> d.currentSession.value.id < |d.sessions|
    ensures var r := LogoutLedger(d, Some(user), now, today);
            && r.users.Keys == d.users.Keys
            && (user.id in r.users ==> !r.users[user.id].isOnline)
            && r.currentUser == d.currentUser && r.calls == d.calls
    ensures d.currentSession.None? || d.currentUser.None? ==>
              LogoutLedger(d, Some(user), now, today) == Ledger.OnlineSet(d, user.id, false)
  {
    var offline := Ledger.OnlineSet(d, user.id, false);
    assert offline.users.Keys == d.users.Keys;
    if d.currentSession.Some? && d.currentUser.Some? {
      Ledger.SessionEndedEffects(offline, now, today);
      var uid := d.currentUser.value.id;
      var r := Ledger.SessionEnded(offline, now, today);
      assert r.users == (if uid in offline.users then offline.users[uid := offline.users[uid].(isOnline := false)] else offline.users);
    }
  }

  /**
   * With a current session and a ledger user, logging out closes the session
   * document with its duration (counting the logout on it), tracks the
   * logout with that duration, counts the duration and one session in the
   * day's statistics, and clears the current session.
   */
  lemma LogoutLedgerEffects(d: Ledger.Store, user: User, now: int, today: string)
    requires d.currentSession.Some? && d.currentUser.Some? && d.currentSession.value.id < |d.sessions|
    ensures var r := LogoutLedger(d, Some(user), now, today);
            var s := d.currentSession.value;
            var duration := now - s.startTime;
            var uid := d.currentUser.value.id;
            var closed := d.sessions[s.id].(endTime := Some(now), duration := Some(duration), isActive := false);
            var key := Ledger.StatsKey(uid, today);
            var base := if key in d.dailyStats then d.dailyStats[key].stats else Ledger.ZeroCounters();
            && r.currentSession == None
            && r.sessions == d.sessions[s.id := Ledger.Touched(closed, now)]
            && r.events == d.events + [Ledger.ActivityEvent(uid, uid, Ledger.Logout, now, map["sessionDuration" := Ledger.Num(duration)],
                                                            Ledger.DefaultDeviceInfo)]
            && r.dailyStats == d.dailyStats[key := Ledger.DailyStats(uid, uid, today,
                                                                    Ledger.Apply(base, Ledger.Logout, Ledger.StatsData(None, Some(duration), Some(1))))]
  {
    Ledger.SessionEndedEffects(Ledger.OnlineSet(d, user.id, false), now, today);
  }

  // ---------------------------------------------------------------------------
  // The service.

  class AuthService {
    var authState: AuthState
    var storedAuthState: Option<SavedAuthState>   // ATAS_AUTH_STATE
    var userData: Option<User>                    // ATAS_USER_DATA
    var deviceData: Option<Device>                // ATAS_DEVICE_DATA
    var encryptedKeys: Option<KeyBundle>          // ATAS_ENCRYPTED_KEYS
    var biometricSetup: Option<BiometricSetup>    // ATAS_BIOMETRIC_SETUP
    const crypto: CryptoCore.KeyStore
    const ids: AtasId.IdAllocator
    const ledger: Ledger.FirebaseLedger
    const natives: Natives

    ghost predicate Valid()
      reads ledger
    {
      ledger.Valid()
    }

    /**
     * The service as its constructor leaves it: the sensor check, then
     * loadAuthState, which rebuilds the state only when the saved state, the
     * user and the device are all stored.
     */
    constructor(crypto: CryptoCore.KeyStore, ids: AtasId.IdAllocator, ledger: Ledger.FirebaseLedger, natives: Natives,
                sensorAvailable: Result<bool, string>,
                storedAuthState: Option<SavedAuthState>, userData: Option<User>, deviceData: Option<Device>,
                encryptedKeys: Option<KeyBundle>, biometricSetup: Option<BiometricSetup>)
      requires ledger.Valid()
      ensures Valid()
      ensures this.crypto == crypto && this.ids == ids && this.ledger == ledger && this.natives == natives
      ensures this.storedAuthState == storedAuthState && this.userData == userData && this.deviceData == deviceData
      ensures this.encryptedKeys == encryptedKeys && this.biometricSetup == biometricSetup
      ensures storedAuthState.Some? && userData.Some? && deviceData.Some? ==>
                authState == Restored(storedAuthState.value, userData.value, deviceData.value, biometricSetup.Some?)
      ensures !(storedAuthState.Some? && userData.Some? && deviceData.Some?) ==>
                authState == InitialAuthState.(biometricAvailable := sensorAvailable == Success(true))
    {
      this.crypto := crypto;
      this.ids := ids;
      this.ledger := ledger;
      this.natives := natives;
      this.storedAuthState := storedAuthState;
      this.userData := userData;
      this.deviceData := deviceData;
      this.encryptedKeys := encryptedKeys;
      this.biometricSetup := biometricSetup;
      var s := InitialAuthState.(biometricAvailable := sensorAvailable == Success(true));
      if storedAuthState.Some? && userData.Some? && deviceData.Some? {
        s := Restored(storedAuthState.value, userData.value, deviceData.value, biometricSetup.Some?);
      }
      authState := s;
    }

    /** saveAuthState: writes the five saved fields. */
    method SaveAuthState()
      modifies this`storedAuthState
      ensures storedAuthState == Some(Snapshot(authState))
    {
      storedAuthState := Some(Snapshot(authState));
    }

    /** authenticateWithBiometrics: enabled, a stored setup, and a prompt that succeeds with a signature. */
    function AuthenticateWithBiometrics(sensor: Result<SensorSignature, string>): (ok: bool)
      reads this
      ensures ok <==> authState.biometricEnabled && biometricSetup.Some? &&
                      sensor.Success? && sensor.value.success && Present(sensor.value.signature)
    {
      if !authState.biometricEnabled || biometricSetup.None? then false
      else match sensor
        case Failure(_) => false
        case Success(answer) => answer.success && Present(answer.signature)
    }

    /**
     * verifyPassword: stored keys, a master key derived from the password,
     * the stored salt and the clock, and a test blob that opens under it.
     * What the test blob decrypts to is not compared with anything.
     */
    function VerifyPassword(password: string, email: string, nowMillis: nat): (ok: bool)
      reads this
      ensures ok <==>
                && encryptedKeys.Some?
                && CryptoCore.DeriveUmk(password, encryptedKeys.value.salt, email, nowMillis, natives.argon2).Success?
                && CryptoCore.Decrypt(encryptedKeys.value.testData,
                                      CryptoCore.DeriveUmk(password, encryptedKeys.value.salt, email, nowMillis, natives.argon2).value,
                                      None, natives.aeadDecrypt).Success?
    {
      if encryptedKeys.None? then false
      else
        match CryptoCore.DeriveUmk(password, encryptedKeys.value.salt, email, nowMillis, natives.argon2)
        case Failure(_) => false
        case Success(masterKey) => CryptoCore.Decrypt(encryptedKeys.value.testData, masterKey, None, natives.aeadDecrypt).Success?
    }

    /**
     * A password whose derivation, with the stored salt and the login clock,
     * gives back the master key the stored bundle was sealed under passes
     * verifyPassword, and loadUserKeys then gets through with it.
     */
    lemma MatchingMasterKeyVerifies(password: string, email: string, nowMillis: nat, masterKey: string, signingKeys: KeyPair,
                                    saltSource: nat -> Result<string, string>,
                                    keyNonce: nat -> Result<string, string>, testNonce: nat -> Result<string, string>)
      requires CryptoCore.AeadOpensSealed(natives.aeadEncrypt, natives.aeadDecrypt)
      requires encryptedKeys.Some?
      requires NewKeyBundle(masterKey, signingKeys, saltSource, keyNonce, testNonce, natives.aeadEncrypt) == Success(encryptedKeys.value)
      requires CryptoCore.DeriveUmk(password, encryptedKeys.value.salt, email, nowMillis, natives.argon2) == Success(masterKey)
      ensures VerifyPassword(password, email, nowMillis)
      ensures KeysLoadable(email, password, nowMillis)
    {
      BundleOpensUnderMasterKey(masterKey, signingKeys, saltSource, keyNonce, testNonce, natives);
    }

    /** Whether loadUserKeys gets through: stored keys, a derived master key, and a private key blob that opens under it. */
    function KeysLoadable(email: string, password: string, nowMillis: nat): bool
      reads this
    {
      && encryptedKeys.Some?
      && CryptoCore.DeriveUmk(password, encryptedKeys.value.salt, email, nowMillis, natives.argon2).Success?
      && CryptoCore.Decrypt(encryptedKeys.value.encryptedPrivateKey,
                            CryptoCore.DeriveUmk(password, encryptedKeys.value.salt, email, nowMillis, natives.argon2).value,
                            None, natives.aeadDecrypt).Success?
    }

    /**
     * loadUserKeys: installs the derived master key, the stored public key and
     * the decrypted private key in the crypto core, or fails with
     * "Failed to load encryption keys" and leaves it alone.
     */
    method LoadUserKeys(email: string, password: string, nowMillis: nat) returns (r: Outcome<string>)
      modifies crypto
      ensures r.Pass? <==> KeysLoadable(email, password, nowMillis)
      ensures r.Fail? ==> r.error == "Failed to load encryption keys" && crypto.keys == old(crypto.keys)
      ensures r.Pass? ==>
                var masterKey := CryptoCore.DeriveUmk(password, encryptedKeys.value.salt, email, nowMillis, natives.argon2).value;
                var privateKey := CryptoCore.Decrypt(encryptedKeys.value.encryptedPrivateKey, masterKey, None, natives.aeadDecrypt).value;
                crypto.keys == Some(CryptoKeys(masterKey, encryptedKeys.value.publicKey, privateKey, map[]))
    {
      if encryptedKeys.None? {
        return Fail("Failed to load encryption keys");
      }
      var bundle := encryptedKeys.value;
      var masterKey := CryptoCore.DeriveUmk(password, bundle.salt, email, nowMillis, natives.argon2);
      if masterKey.Failure? {
        return Fail("Failed to load encryption keys");
      }
      var privateKey := CryptoCore.Decrypt(bundle.encryptedPrivateKey, masterKey.value, None, natives.aeadDecrypt);
      if privateKey.Failure? {
        return Fail("Failed to load encryption keys");
      }
      crypto.InitializeKeys(masterKey.value, KeyPair(bundle.publicKey, privateKey.value));
      r := Pass;
    }

    /**
     * storeUserData: writes the user and the device, then the bundle
     * NewKeyBundle builds, then the keychain backup. A failure after the
     * first two writes leaves them in place.
     */
    method StoreUserData(user: User, device: Device, masterKey: string, signingKeys: KeyPair,
                         saltSource: nat -> Result<string, string>,
                         keyNonce: nat -> Result<string, string>, testNonce: nat -> Result<string, string>,
                         keychainSaved: bool)
      returns (r: Outcome<string>)
      modifies this`userData, this`deviceData, this`encryptedKeys
      ensures userData == Some(user) && deviceData == Some(device)
      ensures var bundle := NewKeyBundle(masterKey, signingKeys, saltSource, keyNonce, testNonce, natives.aeadEncrypt);
              && encryptedKeys == (if bundle.Success? then Some(bundle.value) else old(encryptedKeys))
              && (r.Pass? <==> bundle.Success? && keychainSaved)
      ensures r.Fail? ==> r.error == "Failed to store user data securely"
    {
      userData := Some(user);
      deviceData := Some(device);
      var bundle := NewKeyBundle(masterKey, signingKeys, saltSource, keyNonce, testNonce, natives.aeadEncrypt);
      if bundle.Failure? {
        return Fail("Failed to store user data securely");
      }
      encryptedKeys := Some(bundle.value);
      if !keychainSaved {
        return Fail("Failed to store user data securely");
      }
      r := Pass;
    }

    /**
     * registerUser. The steps run in this order, and the first that fails ends the call:
     * - Google sign-in;
     * - Firebase sign-in;
     * - the email check;
     * - identifier allocation;
     * - salt, master key and signing keys;
     * - device and user records;
     * - local storage;
     * - profile and session;
     * - the crypto core;
     * - the new state.
     */
    method RegisterUser(data: RegistrationData, env: RegisterEnv) returns (r: Result<User, string>)
      requires Valid()
      modifies this, crypto, ids, ledger
      ensures Valid()
      ensures biometricSetup == old(biometricSetup)
      ensures env.google.None? ==> r == Failure("Google authentication failed")
      ensures env.google.Some? && env.firebase.Failure? ==> r == Failure("Registration failed")
      ensures env.google.Some? && env.firebase.Success? && env.google.value.email != data.email ==>
                r == Failure("Gmail does not match provided email address")
      ensures !SignInsMatch(data, env) ==>
                && ids.userCounter == old(ids.userCounter) && ids.savedCounter == old(ids.savedCounter) && ids.records == old(ids.records)
                && userData == old(userData) && deviceData == old(deviceData) && encryptedKeys == old(encryptedKeys)
      ensures SignInsMatch(data, env) ==>
                && ids.userCounter == old(ids.userCounter) + 1
                && ids.savedCounter == (if env.counterSaved then Some(ids.userCounter) else old(ids.savedCounter))
                && ids.records == (if env.counterSaved && env.recordSaved then old(ids.records) + [NewIdRecord(data, env, ids.userCounter)]
                                   else old(ids.records))
      ensures SignInsMatch(data, env) && !env.counterSaved ==>
                r == Failure("Registration failed") && userData == old(userData) && deviceData == old(deviceData)
                && encryptedKeys == old(encryptedKeys)
      ensures SignInsMatch(data, env) && env.counterSaved ==>
                var p := PrepareRegistration(data, env, env.google.value, env.firebase.value, RegisteredId(data, env, ids.userCounter), natives);
                && (p.Failure? ==>
                      r == Failure("Registration failed") && userData == old(userData) && deviceData == old(deviceData)
                      && encryptedKeys == old(encryptedKeys))
                && (p.Success? ==>
                      var bundle := NewKeyBundle(p.value.masterKey, p.value.signingKeys, env.storageSalt, env.storedKeyNonce,
                                                 env.testDataNonce, natives.aeadEncrypt);
                      && userData == Some(p.value.user) && deviceData == Some(p.value.device)
                      && encryptedKeys == (if bundle.Success? then Some(bundle.value) else old(encryptedKeys))
                      && (r.Success? <==> bundle.Success? && env.keychainSaved))
      ensures r.Failure? ==>
                && authState == old(authState) && storedAuthState == old(storedAuthState) && crypto.keys == old(crypto.keys)
                && ledger.Doc() == old(ledger.Doc())
      ensures r.Success? ==>
                && SignInsMatch(data, env) && env.counterSaved
                && var p := PrepareRegistration(data, env, env.google.value, env.firebase.value, RegisteredId(data, env, ids.userCounter), natives);
                   && p.Success? && r.value == p.value.user
                   && authState == AuthState(true, Some(p.value.user), Some(p.value.device), Some(AccessToken), Some(RefreshToken),
                                             old(authState).biometricAvailable, false)
                   && storedAuthState == Some(Snapshot(authState))
                   && crypto.keys == Some(CryptoKeys(p.value.masterKey, p.value.signingKeys.publicKey, p.value.signingKeys.privateKey, map[]))
                   && ledger.Doc() == RegisteredLedger(old(ledger.Doc()), p.value.user, SignInDevice(env.system, p.value.device.id), env.nowSeconds)
    {
      if env.google.None? {
        r := Failure("Google authentication failed");
      } else if env.firebase.Failure? {
        r := Failure("Registration failed");
      } else if env.google.value.email != data.email {
        r := Failure("Gmail does not match provided email address");
      } else {
        r := RegisterMatched(data, env);
      }
    }

    /** registerUser once both sign-ins succeeded with the given email: allocation, then steps 5 to 12. */
    method RegisterMatched(data: RegistrationData, env: RegisterEnv) returns (r: Result<User, string>)
      requires Valid() && SignInsMatch(data, env)
      modifies this`userData, this`deviceData, this`encryptedKeys, this`authState, this`storedAuthState, crypto, ids, ledger
      ensures Valid()
      ensures ids.userCounter == old(ids.userCounter) + 1
      ensures ids.savedCounter == if env.counterSaved then Some(ids.userCounter) else old(ids.savedCounter)
      ensures ids.records == if env.counterSaved && env.recordSaved then old(ids.records) + [NewIdRecord(data, env, ids.userCounter)]
                             else old(ids.records)
      ensures !env.counterSaved ==>
                r == Failure("Registration failed") && userData == old(userData) && deviceData == old(deviceData)
                && encryptedKeys == old(encryptedKeys)
      ensures env.counterSaved ==>
                var p := PrepareRegistration(data, env, env.google.value, env.firebase.value, RegisteredId(data, env, ids.userCounter), natives);
                && (p.Failure? ==>
                      r == Failure("Registration failed") && userData == old(userData) && deviceData == old(deviceData)
                      && encryptedKeys == old(encryptedKeys))
                && (p.Success? ==>
                      var bundle := NewKeyBundle(p.value.masterKey, p.value.signingKeys, env.storageSalt, env.storedKeyNonce,
                                                 env.testDataNonce, natives.aeadEncrypt);
                      && userData == Some(p.value.user) && deviceData == Some(p.value.device)
                      && encryptedKeys == (if bundle.Success? then Some(bundle.value) else old(encryptedKeys))
                      && (r.Success? <==> bundle.Success? && env.keychainSaved))
      ensures r.Failure? ==>
                && r.error == "Registration failed"
                && authState == old(authState) && storedAuthState == old(storedAuthState) && crypto.keys == old(crypto.keys)
                && ledger.Doc() == old(ledger.Doc())
      ensures r.Success? ==>
                && env.counterSaved
                && var p := PrepareRegistration(data, env, env.google.value, env.firebase.value, RegisteredId(data, env, ids.userCounter), natives);
                   && p.Success? && r.value == p.value.user
                   && authState == AuthState(true, Some(p.value.user), Some(p.value.device), Some(AccessToken), Some(RefreshToken),
                                             old(authState).biometricAvailable, false)
                   && storedAuthState == Some(Snapshot(authState))
                   && crypto.keys == Some(CryptoKeys(p.value.masterKey, p.value.signingKeys.publicKey, p.value.signingKeys.privateKey, map[]))
                   && ledger.Doc() == RegisteredLedger(old(ledger.Doc()), p.value.user, SignInDevice(env.system, p.value.device.id), env.nowSeconds)
    {
      var atasId := AllocateId(data, env);
      if atasId.Failure? {
        return Failure("Registration failed");
      }
      r := CompleteRegistration(data, env, atasId.value);
    }

    /** registerUser's steps 5 to 12 once the identifier `atasId` is allocated. */
    method CompleteRegistration(data: RegistrationData, env: RegisterEnv, atasId: string) returns (r: Result<User, string>)
      requires Valid() && env.google.Some? && env.firebase.Success?
      modifies this`userData, this`deviceData, this`encryptedKeys, this`authState, this`storedAuthState, crypto, ledger
      ensures Valid()
      ensures var p := PrepareRegistration(data, env, env.google.value, env.firebase.value, atasId, natives);
              p.Failure? ==> r.Failure? && userData == old(userData) && deviceData == old(deviceData) && encryptedKeys == old(encryptedKeys)
      ensures var p := PrepareRegistration(data, env, env.google.value, env.firebase.value, atasId, natives);
              p.Success? ==>
                var bundle := NewKeyBundle(p.value.masterKey, p.value.signingKeys, env.storageSalt, env.storedKeyNonce,
                                           env.testDataNonce, natives.aeadEncrypt);
                && userData == Some(p.value.user) && deviceData == Some(p.value.device)
                && encryptedKeys == (if bundle.Success? then Some(bundle.value) else old(encryptedKeys))
                && (r.Success? <==> bundle.Success? && env.keychainSaved)
      ensures r.Failure? ==>
                && r.error == "Registration failed"
                && authState == old(authState) && storedAuthState == old(storedAuthState) && crypto.keys == old(crypto.keys)
                && ledger.Doc() == old(ledger.Doc())
      ensures r.Success? ==>
                var p := PrepareRegistration(data, env, env.google.value, env.firebase.value, atasId, natives);
                && p.Success? && r.value == p.value.user
                && authState == AuthState(true, Some(p.value.user), Some(p.value.device), Some(AccessToken), Some(RefreshToken),
                                          old(authState).biometricAvailable, false)
                && storedAuthState == Some(Snapshot(authState))
                && crypto.keys == Some(CryptoKeys(p.value.masterKey, p.value.signingKeys.publicKey, p.value.signingKeys.privateKey, map[]))
                && ledger.Doc() == RegisteredLedger(old(ledger.Doc()), p.value.user, SignInDevice(env.system, p.value.device.id), env.nowSeconds)
    {
      var prepared := PrepareRegistration(data, env, env.google.value, env.firebase.value, atasId, natives);
      if prepared.Failure? {
        return Failure("Registration failed");
      }
      var p := prepared.value;
      var stored := StoreUserData(p.user, p.device, p.masterKey, p.signingKeys, env.storageSalt,
                                  env.storedKeyNonce, env.testDataNonce, env.keychainSaved);
      if stored.Fail? {
        return Failure("Registration failed");
      }
      SignInRegistered(p, env.system, env.nowSeconds);
      r := Success(p.user);
    }

    /** registerUser's step 4: a new identifier from the allocator, whose counter moves on whether or not it is saved. */
    method AllocateId(data: RegistrationData, env: RegisterEnv) returns (r: Result<string, string>)
      modifies ids
      ensures ids.userCounter == old(ids.userCounter) + 1
      ensures r.Success? <==> env.counterSaved
      ensures r.Success? ==> r.value == RegisteredId(data, env, ids.userCounter)
      ensures ids.savedCounter == if env.counterSaved then Some(ids.userCounter) else old(ids.savedCounter)
      ensures ids.records == if env.counterSaved && env.recordSaved then old(ids.records) + [NewIdRecord(data, env, ids.userCounter)]
                             else old(ids.records)
    {
      var record := ids.GenerateId(data.email, data.phoneNumber, data.countryName, env.currentYear,
                                   env.idRandom, env.idMillis, env.counterSaved, env.recordSaved);
      r := if record.Success? then Success(record.value.id) else Failure(record.error);
    }

    /** registerUser's steps 9 to 12: the Firestore profile, a session, the crypto core's keys and the saved new state. */
    method SignInRegistered(p: Prepared, system: DeviceSystem, nowSeconds: int)
      requires Valid()
      modifies this`authState, this`storedAuthState, crypto, ledger
      ensures Valid()
      ensures authState == AuthState(true, Some(p.user), Some(p.device), Some(AccessToken), Some(RefreshToken),
                                     old(authState).biometricAvailable, false)
      ensures storedAuthState == Some(Snapshot(authState))
      ensures crypto.keys == Some(CryptoKeys(p.masterKey, p.signingKeys.publicKey, p.signingKeys.privateKey, map[]))
      ensures ledger.Doc() == RegisteredLedger(old(ledger.Doc()), p.user, SignInDevice(system, p.device.id), nowSeconds)
    {
      ledger.CreateUserProfile(p.user, nowSeconds);
      ledger.StartUserSession(SignInDevice(system, p.device.id), nowSeconds);
      crypto.InitializeKeys(p.masterKey, p.signingKeys);
      authState := AuthState(true, Some(p.user), Some(p.device), Some(AccessToken), Some(RefreshToken),
                             authState.biometricAvailable, false);
      SaveAuthState();
    }

    /**
     * The reason loginUser gives up before touching anything, checked in
     * this order: no stored user, another email, another device, no factor,
     * a factor that fails. None when all checks pass.
     */
    function LoginRejection(cred: LoginCredentials, env: LoginEnv): (reason: Option<string>)
      reads this
      ensures userData.None? ==> reason == Some("User not found")
      ensures userData.Some? && userData.value.email != cred.email ==> reason == Some("Invalid credentials")
      ensures userData.Some? && userData.value.email == cred.email && env.fingerprint != cred.deviceFingerprint ==>
                reason == Some("Device not recognized")
      ensures userData.Some? && userData.value.email == cred.email && env.fingerprint == cred.deviceFingerprint ==>
                match ChooseFactor(cred, authState.biometricEnabled)
                case NoFactor => reason == Some("No authentication method provided")
                case BiometricFactor =>
                  reason == if AuthenticateWithBiometrics(env.sensor) then None else Some("Authentication failed")
                case PasswordFactor(p) =>
                  reason == if VerifyPassword(p, userData.value.email, env.verifyMillis) then None else Some("Authentication failed")
    {
      if userData.None? then Some("User not found")
      else if userData.value.email != cred.email then Some("Invalid credentials")
      else if env.fingerprint != cred.deviceFingerprint then Some("Device not recognized")
      else match ChooseFactor(cred, authState.biometricEnabled)
        case NoFactor => Some("No authentication method provided")
        case BiometricFactor => if AuthenticateWithBiometrics(env.sensor) then None else Some("Authentication failed")
        case PasswordFactor(p) => if VerifyPassword(p, userData.value.email, env.verifyMillis) then None else Some("Authentication failed")
    }

    /** A failed biometric prompt fails the login even when the password sent with it is right: there is no fallback. */
    lemma BiometricFailureDoesNotFallBack(cred: LoginCredentials, env: LoginEnv)
      requires userData.Some? && userData.value.email == cred.email && env.fingerprint == cred.deviceFingerprint
      requires Present(cred.biometricData) && authState.biometricEnabled
      requires !AuthenticateWithBiometrics(env.sensor)
      ensures LoginRejection(cred, env) == Some("Authentication failed")
    {
    }

    /**
     * loginUser. After the checks of LoginRejection, the keys are loaded with
     * the password sent (the empty string when there is none), the profile is
     * taken from Firestore when it is there, a session starts, the new state
     * is saved, and the profile is marked online; a missing profile fails that
     * last step with "Login failed" after the state has changed.
     */
    method LoginUser(cred: LoginCredentials, env: LoginEnv) returns (r: Result<User, string>)
      requires Valid()
      modifies this, crypto, ledger
      ensures Valid()
      ensures userData == old(userData) && deviceData == old(deviceData) && encryptedKeys == old(encryptedKeys)
      ensures biometricSetup == old(biometricSetup)
      ensures old(LoginRejection(cred, env)).Some? ==>
                && r == Failure(old(LoginRejection(cred, env)).value)
                && authState == old(authState) && storedAuthState == old(storedAuthState) && crypto.keys == old(crypto.keys)
                && ledger.Doc() == old(ledger.Doc())
      ensures old(LoginRejection(cred, env)).None? && !old(KeysLoadable(cred.email, cred.password.GetOr(""), env.loadMillis)) ==>
                && r == Failure("Login failed") && authState == old(authState) && storedAuthState == old(storedAuthState)
                && crypto.keys == old(crypto.keys)
                && ledger.Doc() == LoginTracked(old(ledger.Doc()), ChooseFactor(cred, old(authState).biometricEnabled), env.nowSeconds)
      ensures old(LoginRejection(cred, env)).None? && old(KeysLoadable(cred.email, cred.password.GetOr(""), env.loadMillis)) ==>
                var local := old(userData).value;
                var user := if local.id in old(ledger.users) then old(ledger.users)[local.id] else local;
                var bundle := old(encryptedKeys).value;
                var masterKey := CryptoCore.DeriveUmk(cred.password.GetOr(""), bundle.salt, local.email, env.loadMillis, natives.argon2).value;
                var privateKey := CryptoCore.Decrypt(bundle.encryptedPrivateKey, masterKey, None, natives.aeadDecrypt).value;
                && crypto.keys == Some(CryptoKeys(masterKey, bundle.publicKey, privateKey, map[]))
                && authState == AuthState(true, Some(user), old(deviceData), Some(AccessToken), Some(RefreshToken),
                                          old(authState).biometricAvailable, old(authState).biometricEnabled)
                && storedAuthState == Some(Snapshot(authState))
                && (r.Success? <==> local.id in old(ledger.users))
                && (r.Success? ==> r.value == user)
                && (r.Failure? ==> r.error == "Login failed")
                && ledger.Doc() == LoginLedger(LoginTracked(old(ledger.Doc()), ChooseFactor(cred, old(authState).biometricEnabled), env.nowSeconds),
                                               local.id, SignInDevice(env.system, env.fingerprint), env.nowSeconds)
    {
      var rejection := LoginRejection(cred, env);
      if rejection.Some? {
        return Failure(rejection.value);
      }
      var local := userData.value;
      if ChooseFactor(cred, authState.biometricEnabled) == BiometricFactor {
        ledger.TrackActivity(Ledger.BiometricEnabled, None, None, env.nowSeconds);
      }
      assert ledger.users == old(ledger.users) by {
        if old(ledger.currentUser).Some? {
          Ledger.TrackedEffects(old(ledger.Doc()), Ledger.BiometricEnabled, None, None, env.nowSeconds);
        }
      }
      var loaded := LoadUserKeys(local.email, cred.password.GetOr(""), env.loadMillis);
      if loaded.Fail? {
        return Failure("Login failed");
      }
      r := SyncAndSignIn(local, env);
    }

    /**
     * loginUser's steps 7 to 10: take the Firestore profile when there is one,
     * start a session, set and save the new state, and mark the profile online.
     * With no profile the last step fails, after the state has changed.
     */
    method SyncAndSignIn(local: User, env: LoginEnv) returns (r: Result<User, string>)
      requires Valid()
      modifies this`authState, this`storedAuthState, ledger
      ensures Valid()
      ensures ledger.Doc() == LoginLedger(old(ledger.Doc()), local.id, SignInDevice(env.system, env.fingerprint), env.nowSeconds)
      ensures var user := if local.id in old(ledger.users) then old(ledger.users)[local.id] else local;
              && authState == AuthState(true, Some(user), deviceData, Some(AccessToken), Some(RefreshToken),
                                        old(authState).biometricAvailable, old(authState).biometricEnabled)
              && storedAuthState == Some(Snapshot(authState))
              && (r.Success? <==> local.id in old(ledger.users))
              && (r.Success? ==> r.value == user)
              && (r.Failure? ==> r.error == "Login failed")
    {
      var user := local;
      var profile := ledger.GetUserProfile(local.id);
      if profile.Some? {
        user := profile.value;
      }
      assert user.id == local.id;
      assert user == if local.id in old(ledger.users) then old(ledger.users)[local.id] else local;
      ghost var read := ledger.Doc();
      var device := SignInDevice(env.system, env.fingerprint);
      ledger.StartUserSession(device, env.nowSeconds);
      assert ledger.users.Keys == old(ledger.users).Keys by {
        if read.currentUser.Some? {
          Ledger.SessionStartedEffects(read, device, env.nowSeconds);
        }
      }
      authState := AuthState(true, Some(user), deviceData, Some(AccessToken), Some(RefreshToken),
                             authState.biometricAvailable, authState.biometricEnabled);
      SaveAuthState();
      var updated := ledger.UpdateUserProfile(user.id, Ledger.ProfileUpdates(Some(true), None), env.nowSeconds);
      if updated.Fail? {
        return Failure("Login failed");
      }
      r := Success(user);
    }

    /**
     * setupBiometricAuth: needs the sensor, then a signed-in user; creates a
     * key under the user's alias, stores the setup and enables biometrics.
     */
    method SetupBiometricAuth(createdKey: Result<string, string>) returns (r: Result<BiometricSetup, string>)
      modifies this`biometricSetup, this`authState, this`storedAuthState
      ensures !old(authState).biometricAvailable ==>
                r == Failure("Biometric authentication not available") && unchanged(this)
      ensures old(authState).biometricAvailable && (!old(authState).isAuthenticated || old(authState).user.None?) ==>
                r == Failure("User not authenticated") && unchanged(this)
      ensures old(authState).biometricAvailable && old(authState).isAuthenticated && old(authState).user.Some? && createdKey.Failure? ==>
                r == Failure("Biometric setup failed") && unchanged(this)
      ensures r.Success? <==>
                old(authState).biometricAvailable && old(authState).isAuthenticated && old(authState).user.Some? && createdKey.Success?
      ensures r.Success? ==>
                && r.value == BiometricSetup(createdKey.value, BiometricAlias(old(authState).user.value.id), BiometricType)
                && biometricSetup == Some(r.value)
                && authState == old(authState).(biometricEnabled := true)
                && storedAuthState == Some(Snapshot(authState))
    {
      if !authState.biometricAvailable {
        return Failure("Biometric authentication not available");
      }
      if !authState.isAuthenticated || authState.user.None? {
        return Failure("User not authenticated");
      }
      var alias := BiometricAlias(authState.user.value.id);
      if createdKey.Failure? {
        return Failure("Biometric setup failed");
      }
      var setup := BiometricSetup(createdKey.value, alias, BiometricType);
      biometricSetup := Some(setup);
      authState := authState.(biometricEnabled := true);
      SaveAuthState();
      r := Success(setup);
    }

    /**
     * logout: a signed-in user is marked offline and their session ended;
     * then, unless a Google call throws (which skips everything after it),
     * the keys and the ledger's user are cleared, the state is reset and the
     * saved state is removed. The stored user, device and keys stay for the
     * next login.
     */
    method Logout(env: LogoutEnv)
      requires Valid()
      modifies this, crypto, ledger
      ensures Valid()
      ensures userData == old(userData) && deviceData == old(deviceData) && encryptedKeys == old(encryptedKeys)
      ensures biometricSetup == old(biometricSetup)
      ensures GoogleSignOutCompletes(env) ==>
                && authState == LoggedOut(old(authState))
                && storedAuthState == None
                && crypto.keys == None
                && ledger.currentUser == None && ledger.currentSession == None
      ensures !GoogleSignOutCompletes(env) ==>
                authState == old(authState) && storedAuthState == old(storedAuthState) && crypto.keys == old(crypto.keys)
      ensures var ended := LogoutLedger(old(ledger.Doc()), old(authState).user, env.nowSeconds, env.today);
              ledger.Doc() == if GoogleSignOutCompletes(env) then Ledger.CleanedUp(ended) else ended
      ensures old(authState).user.None? ==> ledger.events == old(ledger.events) && ledger.dailyStats == old(ledger.dailyStats)
    {
      if authState.user.Some? {
        ghost var d := ledger.Doc();
        ledger.UpdateOnlineStatus(authState.user.value.id, false);
        ledger.EndUserSession(env.nowSeconds, env.today);
        assert ledger.Doc() == LogoutLedger(d, authState.user, env.nowSeconds, env.today);
      }
      if !GoogleSignOutCompletes(env) {
        return;
      }
      crypto.ClearKeys();
      ledger.Cleanup();
      authState := LoggedOut(authState);
      storedAuthState := None;
    }
  }

  /** A second logout leaves the state exactly as the first did. */
  method LogoutTwice(service: AuthService, first: LogoutEnv, second: LogoutEnv)
    requires service.Valid()
    requires GoogleSignOutCompletes(first) && GoogleSignOutCompletes(second)
    modifies service, service.crypto, service.ledger
    ensures service.authState == LoggedOut(old(service.authState))
    ensures service.storedAuthState == None && service.crypto.keys == None
  {
    service.Logout(first);
    service.Logout(second);
    LogoutIdempotent(old(service.authState));
  }
}
