/**
 * Record shapes shared by the services (src/types/index.ts). Date-valued
 * fields (`lastSeen`, `createdAt`, `lastLoginAt`, `registeredAt`, ...) are
 * not part of these records.
 */
module Types {
  import opened Wrappers

  /** An ATAS user as the services build and store it. */
  datatype User = User(
    id: string,                    // the ATAS identifier
    email: string,
    phoneNumber: string,
    displayName: string,
    profileImage: Option<string>,
    publicKey: string,
    deviceId: string,
    isOnline: bool,
    biometricEnabled: bool,
    firebaseUid: string,
    encryptedPrivateKey: EncryptedData,  // stored as the blob's JSON text
    isEmailVerified: bool)

  /** A registered device. */
  datatype Device = Device(
    id: string,                    // the device fingerprint
    name: string,
    kind: string,                  // 'mobile' | 'desktop' | 'web', taken unchecked from the caller
    os: string,
    publicKey: string,
    encryptedPrivateKey: EncryptedData,  // stored as the blob's JSON text
    isTrusted: bool)

  /** The authentication state held by the auth service. */
  datatype AuthState = AuthState(
    isAuthenticated: bool,
    user: Option<User>,
    device: Option<Device>,
    accessToken: Option<string>,
    refreshToken: Option<string>,
    biometricAvailable: bool,
    biometricEnabled: bool)

  /** An authenticated-encryption blob as the crypto core returns it and the key bundle stores it. */
  datatype EncryptedData = EncryptedData(ciphertext: string, nonce: string, tag: string, algorithm: string)

  /** An Ed25519 key pair. */
  datatype KeyPair = KeyPair(publicKey: string, privateKey: string)

  /** The session key material held in memory by the crypto core. */
  datatype CryptoKeys = CryptoKeys(masterKey: string, publicKey: string, privateKey: string, chatKeys: map<string, string>)
}
