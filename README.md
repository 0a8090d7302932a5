# ATAS messenger core, modelled in Dafny

This project models and proves properties of the logic at the centre of the ATAS messenger app:

- **Identifiers.** The identifier allocator and validator hand out and check `ATAS-{country}-{year}-{NNNN}` identifiers and six-digit access codes (module `AtasId`, class `IdAllocator`).
- **Crypto core.** The session key store holds the master key, the signing key pair and a per-chat key map. Around it sits the framing of the XChaCha20-Poly1305 blobs, the Ed25519 check and the Argon2id request (module `CryptoCore`, class `KeyStore`).
- **Authentication.** The authentication service's state machine covers registration, login, biometric setup, logout and the saved auth state (module `Auth`, class `AuthService`).
- **Activity ledger.** The Firebase service keeps activity events, sessions, per-day statistics, call records and user profiles (module `Ledger`, class `FirebaseLedger`). Firestore is modelled as in-memory maps and sequences.
- **Fine-tuning samples.** Examples are read from a JSON-lines file, built into prompts, truncated response-first, masked in their labels and padded into batches (module `Training`). The generation-time prompt builder is in module `Generate`.

Supporting modules:

- `Wrappers`: `Option`, `Result` and `Outcome`.
- `Text`: decimal rendering and parsing, `padStart`, JavaScript `trim` and Python `strip`.
- `Types`: the record shapes of `src/types/index.ts`.

The model treats these as inputs rather than functions it computes:

- **Native primitives.** Argon2id, the AEAD cipher, the Ed25519 verifier and the random source are uninterpreted function parameters.
- **Fallible outside calls.** Google and Firebase sign-in, storage writes, the keychain, the biometric sensor, the device fingerprint and the clocks are per-call outcome values in an environment record.
- **Training inputs.** The tokenizer, `json.loads` and the file system are parameters of the training model.

The stateful services are classes whose fields the methods update, and each method's `modifies` clause names what it may touch. The ledger's fields are read together as one value, `Ledger.Store` (`FirebaseLedger.Doc()`): each ledger method's `ensures` equates the new value with a function of the old one, such as `Ledger.Tracked` or `Ledger.SessionEnded`, and lemmas named `…Effects` spell out what those functions do field by field. The authentication methods state their ledger writes in the same terms (`Auth.RegisteredLedger`, `Auth.LoginLedger`, `Auth.LogoutLedger`), next to their other fields. Pure logic consists of functions and lemmas.

Some of the code's behaviour is easy to misread, and the model follows what the code does:

- `decrypt` never looks at the blob's `algorithm` field (`CryptoCore.DecryptIgnoresAlgorithm`).
- `saveAuthState` persists five fields: `isAuthenticated`, the two tokens and the two biometric flags.
- The daily-statistics date is the UTC ISO date. Here it is a parameter (`today`).
- `deriveUMK` mixes `Date.now()` into the Argon2 password. Two derivations at different instants therefore hash different inputs (`CryptoCore.UmkRequestDependsOnClock`).
- Registration stores a freshly drawn salt next to the encrypted keys. That salt is not the one the master key was derived with. `verifyPassword` and `loadUserKeys` re-derive with the stored salt, so the model never claims that a correct password verifies. `Auth.AuthService.MatchingMasterKeyVerifies` states only the conditional fact: a derivation that reproduces the sealing key passes.

## Model

| member | source | states |
|---|---|---|
| Text.Decimal | src/services/atasIdService.ts:132 | `toString()` of a natural: all digits, no leading zero except for 0 |
| Text.ParseDecimal | src/services/atasIdService.ts:254-255 | parsing a rendered decimal gives the number back |
| Text.ParseDigits | src/services/atasIdService.ts:254-255 | `parseInt` of a digit string, leading zeros allowed: a k-digit string parses to less than 10^k |
| Text.DecimalLength | src/services/atasIdService.ts:132 | a number renders in at most k digits iff it is below 10^k |
| Text.ParseDigitsInjective | src/services/atasIdService.ts:254-255 | two digit strings of the same length that parse equal are equal |
| Text.DecimalInjective | src/services/atasIdService.ts:132 | distinct numbers render differently |
| Text.PadStart | src/services/atasIdService.ts:132 | `padStart(n, c)`: left-pads to n characters and never truncates; the original is the suffix |
| Text.PadDecimal4 | src/services/atasIdService.ts:132 | the padded number is all digits and parses back to the number, and it is four characters long iff the number is below 10000 |
| Text.IntString | src/services/atasIdService.ts:132 | `toString()` of an integer: it starts with a minus sign iff the integer is negative |
| Text.IntStringInjective | src/services/atasIdService.ts:132 | distinct integers render differently |
| Text.TrimStart | src/services/atasIdService.ts:167 | drops exactly the leading whitespace; the rest starts with a non-space |
| Text.TrimEnd | src/services/atasIdService.ts:167 | drops exactly the trailing whitespace; the rest ends with a non-space |
| Text.Trim | src/train.py:46 | the result is the slice of the input after its leading run of white space, with only white space after it, and has white space at neither end |
| Text.TrimEmpty | src/train.py:46-48 | the stripped line is empty iff the line is all white space |
| Text.JsTrim | src/services/atasIdService.ts:167 | `trim()` under JavaScript's white-space set: the result has white space at neither end (the slice property is Trim's) |
| Text.PyStrip | src/train.py:46 | `strip()` under Python's white-space set: the result has white space at neither end (the slice property is Trim's) |
| Text.TrimUnchanged | src/train.py:66 | a string without whitespace at either end is its own trim |
| Text.TrimIdempotent | src/train.py:84 | stripping twice is stripping once |
| AtasId.Lookup | src/services/atasIdService.ts:6-45 | the first table entry with that name; found iff some entry has the name |
| AtasId.TableCodesHaveShape | src/services/atasIdService.ts:6-45 | every code in the table is three upper-case letters |
| AtasId.CountryCode | src/services/atasIdService.ts:166-169 | the trimmed name's code, or INT for a name the table lacks; always a table code |
| AtasId.CountryCodeAsWritten | src/services/atasIdService.ts:166-169 | the lookup as written yields an inherited member for prototype names that are not in the table |
| AtasId.PrototypeNameNotInTable | src/services/atasIdService.ts:6-45 | no name inherited from Object.prototype is a country of the table |
| AtasId.CountryCodeAsWrittenEscapesTable | src/services/atasIdService.ts:168 | any name that trims to an inherited member, such as "constructor", yields that member instead of a code; the corrected lookup gives INT |
| AtasId.ValidateId | src/services/atasIdService.ts:240-297 | a malformed string is rejected for its format; an accepted id has a table code, a year in the window and a number in 1..9999, and re-renders to itself |
| AtasId.ValidatedIdRenders | src/services/atasIdService.ts:243-255 | a well-formed id with a four-digit year and a positive number is the rendering of its parsed fields |
| AtasId.ValidateChecksInOrder | src/services/atasIdService.ts:258-281 | year, then country, then a positive number: each rejection holds iff the earlier checks passed and its own fails |
| AtasId.RenderId | src/services/atasIdService.ts:132-135 | the identifier starts with `ATAS-`, then the country code, then a hyphen, and is longer than those |
| AtasId.MatchesIdFormat | src/services/atasIdService.ts:243-244 | a string that matches the pattern has 18 characters and two four-digit fields that parse below 10000 |
| AtasId.RenderedIdFields | src/services/atasIdService.ts:132-135 | a rendered id with a three-letter code, a four-digit year and a number in 1..9999 has the validator's format, and its fields parse back to those values |
| AtasId.ValidateRenderedId | src/services/atasIdService.ts:132-135 | round trip: a rendered table code, window year and number in 1..9999 validates to exactly those fields |
| AtasId.RenderedOverflowIsRejected | src/services/atasIdService.ts:132 | a user number of 10000 or more renders an id the validator rejects as malformed |
| AtasId.RenderIdInjective | src/services/atasIdService.ts:135 | distinct user numbers give distinct ids for one code and year |
| AtasId.ValidateExampleAccepted | src/services/atasIdService.ts:283-290 | "ATAS-IND-2025-0001" validates to (IND, 2025, 1) |
| AtasId.ValidateExampleUnknownCountry | src/services/atasIdService.ts:267-273 | "ATAS-XXX-2025-0001" is rejected for its country |
| AtasId.ValidateExampleEarlyYear | src/services/atasIdService.ts:259-264 | "ATAS-IND-2019-0001" is rejected for its year |
| AtasId.ValidateExampleMalformed | src/services/atasIdService.ts:246-251 | free text is rejected for its format |
| AtasId.ReadUIntBE3 | src/services/atasIdService.ts:181-182 | three big-endian bytes give a value below 2^24 |
| AtasId.AccessCodeValue | src/services/atasIdService.ts:178-189 | the random value or the clock fallback, reduced into [100000, 999999] |
| AtasId.AccessCode | src/services/atasIdService.ts:175-191 | exactly six digits, the first non-zero, parsing to the reduced value |
| AtasId.FindById | src/services/atasIdService.ts:310 | `find`: none iff no record has the id; otherwise the first record with it |
| AtasId.IdAllocator.constructor | src/services/atasIdService.ts:84-106 | the stored counter, or the backend's 1 when none is stored |
| AtasId.IdAllocator.IncrementCounter | src/services/atasIdService.ts:196-207 | the counter goes up by one even when the write fails, and the failure is reported |
| AtasId.IdAllocator.StoreRecord | src/services/atasIdService.ts:222-233 | the record is appended and its id is then taken; a failed write changes nothing |
| AtasId.IdAllocator.GenerateId | src/services/atasIdService.ts:115-159 | the record is the allocation under the country name's code: counter +1, the id rendered from the code, the year and the new counter; after a saved record the id is taken |
| AtasId.IdAllocator.Allocate | src/services/atasIdService.ts:124-158 | the counter is +1 even when its write fails, which fails the call; otherwise the record renders the new counter with the code and year, is appended when its write succeeds, and its id is then taken |
| AtasId.IdAllocator.GetData | src/services/atasIdService.ts:304-315 | a stored record with that id, none iff no record has it |
| AtasId.IdAllocator.IsAvailable | src/services/atasIdService.ts:353-357 | available iff no stored record has the id |
| AtasId.ConsecutiveIdsDiffer | src/services/atasIdService.ts:128-135 | two allocations in a row under one code and year give different ids with consecutive numbers, and both are then taken |
| CryptoCore.AssociatedData | src/crypto/cryptoCore.ts:97 | absent associated data is passed as the empty string |
| CryptoCore.Encrypt | src/crypto/cryptoCore.ts:90-113 | a 24-byte nonce request, the primitive's ciphertext and tag, and the XChaCha20-Poly1305 label; any failure reads "Failed to encrypt data" |
| CryptoCore.Decrypt | src/crypto/cryptoCore.ts:122-137 | the primitive receives exactly ciphertext ++ tag with the blob's nonce; any failure reads "Failed to decrypt data" |
| CryptoCore.DecryptIgnoresAlgorithm | src/crypto/cryptoCore.ts:124-130 | relabelling a blob's algorithm does not change what it decrypts to |
| CryptoCore.DecryptEncrypted | src/crypto/cryptoCore.ts:90-137 | under a primitive that keeps the AEAD contract, decrypting an encrypted blob gives the plaintext back |
| CryptoCore.VerifySignature | src/crypto/cryptoCore.ts:162-170 | true iff the primitive answers true; a primitive failure reads as false |
| CryptoCore.GenerateSalt | src/crypto/cryptoCore.ts:193-201 | the random source's bytes of the requested length, or "Failed to generate salt" |
| CryptoCore.UmkRequest | src/crypto/cryptoCore.ts:29-42 | Argon2id with time 3, 65536 KiB, 32-byte output and parallelism 4 over `password|email|clock` and the salt |
| CryptoCore.DeriveUmk | src/crypto/cryptoCore.ts:29-50 | the native call's output for that request, or "Failed to derive master key" |
| CryptoCore.UmkRequestDependsOnClock | src/crypto/cryptoCore.ts:31 | two clock readings give different Argon2 inputs |
| CryptoCore.KeyStore.constructor | src/crypto/cryptoCore.ts:9-20 | the store starts empty |
| CryptoCore.KeyStore.InitializeKeys | src/crypto/cryptoCore.ts:224-231 | installs the given keys with an empty chat-key map; no chat key reads back |
| CryptoCore.KeyStore.AddChatKey | src/crypto/cryptoCore.ts:238-243 | fails untouched when uninitialised; otherwise sets only that chat's entry, leaving every other chat key and the key pair as they were |
| CryptoCore.KeyStore.GetChatKey | src/crypto/cryptoCore.ts:250-255 | the chat's key, none iff uninitialised, the chat is unknown or its key is empty |
| CryptoCore.KeyStore.ClearKeys | src/crypto/cryptoCore.ts:260-265 | the store is empty; no chat key, public key or private key reads back |
| CryptoCore.KeyStore.GetPublicKey | src/crypto/cryptoCore.ts:271-273 | the installed public key, none when uninitialised or empty |
| CryptoCore.KeyStore.GetPrivateKey | src/crypto/cryptoCore.ts:279-281 | the installed private key, none when uninitialised or empty |
| CryptoCore.AddedKeyReadsBack | src/crypto/cryptoCore.ts:224-255 | after initialising and adding a key, the key reads back and the installed key pair is untouched |
| Ledger.ParseActivityName | src/services/firebaseService.ts:27-43 | a recognised string names the type whose value it is |
| Ledger.ActivityNameRoundTrip | src/services/firebaseService.ts:27-43 | every type's value reads back as that type, so no two types share one |
| Ledger.Touched | src/services/firebaseService.ts:560-574 | one more activity at the given time; nothing else in the session changes |
| Ledger.AllCountersComplete | src/services/firebaseService.ts:83-105 | the thirteen counters are all there is |
| Ledger.ZeroCounters | src/services/firebaseService.ts:600-617 | a new day's document has all thirteen counters at zero |
| Ledger.Delta | src/services/firebaseService.ts:620-660 | what one activity adds to one counter: never negative with non-negative amounts, and nothing to newContacts |
| Ledger.Apply | src/services/firebaseService.ts:619-662 | the day's counters after one activity: each counter plus that activity's increment, no counter added or lost |
| Ledger.StatsUpdates | src/services/firebaseService.ts:620-660 | the switch's increments are exactly the non-zero entries of the statistics table |
| Ledger.Merge | src/services/firebaseService.ts:662 | merging increments keeps the set of counters |
| Ledger.MergeUpdates | src/services/firebaseService.ts:620-662 | merging the switch's increments is applying the statistics table |
| Ledger.MessageSentCounters | src/services/firebaseService.ts:621-624 | a sent message adds one to messagesSent and encryptedMessages and nothing else |
| Ledger.SingleCounterActivities | src/services/firebaseService.ts:625-659 | received messages, created and joined groups, shared media and biometric uses each add one to their own counter only |
| Ledger.UntrackedActivitiesChangeNothing | src/services/firebaseService.ts:620-660 | activity types the switch does not list leave every counter as it was |
| Ledger.ApplyMonotone | src/services/firebaseService.ts:628-656 | with non-negative amounts no counter goes down |
| Ledger.ApplyCommutes | src/services/firebaseService.ts:619-662 | two activities give the same counters in either order |
| Ledger.ApplyAllTotals | src/services/firebaseService.ts:619-662 | after a day's activities each counter is its start plus the sum of its increments |
| Ledger.TotalPermutation | src/services/firebaseService.ts:619-662 | the sum of a counter's increments does not depend on the activities' order |
| Ledger.ApplyAllPermutation | src/services/firebaseService.ts:619-662 | a day's counters do not depend on the order in which its activities arrive |
| Ledger.StatsKey | src/services/firebaseService.ts:589 | the key is the user id, an underscore and the date, and splits back into them |
| Ledger.CallActivity | src/services/firebaseService.ts:414-416 | CALL_MADE iff the signed-in user started the call, else CALL_RECEIVED |
| Ledger.CallMetadata | src/services/firebaseService.ts:418-423 | the event records the call id, the call type and the participant count, and the duration iff present, each with its value |
| Ledger.UpdatedUser | src/services/firebaseService.ts:231-234 | the given fields are overwritten and the rest of the profile is kept |
| Ledger.FirebaseLedger.constructor | src/services/firebaseService.ts:127-134 | no signed-in user or session, and the stored profiles keyed by id |
| Ledger.FirebaseLedger.UpdateSessionActivity | src/services/firebaseService.ts:560-574 | only the current session's document records one more activity |
| Ledger.FirebaseLedger.TrackActivity | src/services/firebaseService.ts:439-479 | a no-op without a user; otherwise one event for the user, with metadata {} and the default device when absent, and the session touched |
| Ledger.FirebaseLedger.UpdateDailyStats | src/services/firebaseService.ts:579-667 | a no-op without a user; otherwise the user's bucket for the date, zeroed if new, receives the activity's increments |
| Ledger.FirebaseLedger.GetDailyStats | src/services/firebaseService.ts:672-692 | the bucket for the date, today when none or an empty one is given |
| Ledger.FirebaseLedger.UpdateOnlineStatus | src/services/firebaseService.ts:252-264 | sets the flag of an existing profile; a missing profile changes nothing |
| Ledger.FirebaseLedger.StartUserSession | src/services/firebaseService.ts:484-515 | a no-op without a user; otherwise an active session with no activity yet becomes current, the login is tracked and the user marked online |
| Ledger.FirebaseLedger.EndUserSession | src/services/firebaseService.ts:520-555 | the new ledger is `SessionEnded` of the old: a no-op without session or user; otherwise the close, the logout event, its counters and the user going offline, in that order, and the current session cleared |
| Ledger.FirebaseLedger.CloseSession | src/services/firebaseService.ts:524-534 | the current session's document gets its end time, its duration end - start and is no longer active; nothing else changes |
| Ledger.SessionEndedSteps | src/services/firebaseService.ts:520-550 | ending a session is the composition of its four writes, each on the result of the one before |
| Ledger.FirebaseLedger.StoreCall | src/services/firebaseService.ts:404-434 | the new ledger is `CallStored` of the old: the call is stored, then tracked and counted as made or received |
| Ledger.FirebaseLedger.CreateUserProfile | src/services/firebaseService.ts:164-198 | the new ledger is `ProfileCreated` of the old: the profile is written online, the update is tracked for the previous user, and the new user becomes current |
| Ledger.FirebaseLedger.GetUserProfile | src/services/firebaseService.ts:203-222 | the stored profile iff there is one, which then becomes the current user |
| Ledger.FirebaseLedger.UpdateUserProfile | src/services/firebaseService.ts:227-247 | fails without change on a missing profile; otherwise the new ledger is `ProfileChanged` of the old: the updates applied and tracked |
| Ledger.FirebaseLedger.Cleanup | src/services/firebaseService.ts:804-807 | no signed-in user and no current session |
| Ledger.SignedOutLedgerIsInert | src/services/firebaseService.ts:445-584 | with nobody signed in, tracking and statistics change nothing |
| Ledger.TrackedEffects | src/services/firebaseService.ts:439-479 | a tracked activity appends one event for the signed-in user, touches only the current session and changes nothing else |
| Ledger.SessionStartedEffects | src/services/firebaseService.ts:484-515 | a new active session at the next document id becomes current, the login is appended and counted on it, and the user's profile is online |
| Ledger.SessionEndedEffects | src/services/firebaseService.ts:520-555 | the session's document is closed with its duration, one logout event carries it, the day counts it and one session, the user is offline and no session is current |
| Ledger.CallStoredEffects | src/services/firebaseService.ts:404-434 | the call is appended, one call event with its metadata is tracked and the day's call counters and duration move |
| Ledger.ProfileCreatedEffects | src/services/firebaseService.ts:164-198 | the profile is stored online and current, and the previous user, if any, has the update tracked and their session touched |
| Ledger.ProfileChangedEffects | src/services/firebaseService.ts:227-247 | the stored profile takes the updates, the update event carries them as `newValue`, and the current session is touched |
| Ledger.SessionRoundTrip | src/services/firebaseService.ts:484-555 | start then end: the session lasts stop - start with two activities, and the day counts one session and that time |
| Auth.SnapshotOmitsIdentity | src/services/authService.ts:576-590 | the saved state carries nothing of the user or the device |
| Auth.RegisteredLedgerEffects | src/services/authService.ts:208-220 | after registration the new user is current and online, a new active session with the login counted is current, and the events end with that login |
| Auth.LoginLedgerEffects | src/services/authService.ts:331-377 | with a stored profile: it is signed in and online, a new session is current, and the login then the online update are tracked; without one only the session start remains |
| Auth.LogoutLedgerOffline | src/services/authService.ts:597-600 | logging out leaves the user's stored profile offline and the set of profiles as it was |
| Auth.LogoutLedgerEffects | src/services/authService.ts:597-600 | with a session: it is closed with its duration, the logout is tracked and counted with one session, and no session is current |
| Auth.RestoreSnapshot | src/services/authService.ts:103-127 | saving a signed-in state and loading it back with the stored user and device restores it |
| Auth.LoggedOut | src/services/authService.ts:622-630 | logout's state is the initial one except for the kept sensor availability |
| Auth.LogoutIdempotent | src/services/authService.ts:622-630 | logging out twice is logging out once |
| Auth.BiometricAlias | src/services/authService.ts:399 | the alias is `ATAS_BIOMETRIC_` followed by the user id |
| Auth.ChooseFactor | src/services/authService.ts:302-313 | biometrics iff sent and enabled; else the password iff sent; else none |
| Auth.BiometricTakesPrecedence | src/services/authService.ts:302-310 | with both sent, biometrics win when enabled and the password is used otherwise |
| Auth.PrepareRegistration | src/services/authService.ts:161-203 | success iff salt, master key, signing keys and both key seals succeed; the device and user records carry the sealed private key, the fingerprint and the Firebase account |
| Auth.NewKeyBundle | src/services/authService.ts:548-557 | a fresh salt with the private key and the test plaintext sealed under the master key, iff all three steps succeed |
| Auth.BundleOpensUnderMasterKey | src/services/authService.ts:548-557 | under the AEAD contract both stored blobs open under the master key, to the private key and the test plaintext |
| Auth.AuthService.constructor | src/services/authService.ts:36-127 | the initial state with the sensor's answer, or the saved state rebuilt when state, user and device are all stored |
| Auth.AuthService.SaveAuthState | src/services/authService.ts:576-590 | writes exactly the five saved fields of the current state |
| Auth.AuthService.AuthenticateWithBiometrics | src/services/authService.ts:428-454 | true iff enabled, a setup is stored and the prompt succeeds with a signature |
| Auth.AuthService.VerifyPassword | src/services/authService.ts:462-485 | true iff keys are stored, the derivation succeeds and the test blob opens under the derived key |
| Auth.AuthService.MatchingMasterKeyVerifies | src/services/authService.ts:462-516 | a derivation that reproduces the sealing key passes verifyPassword and loadUserKeys |
| Auth.AuthService.LoadUserKeys | src/services/authService.ts:492-516 | installs the derived master key, stored public key and decrypted private key, or fails and leaves the store alone |
| Auth.AuthService.StoreUserData | src/services/authService.ts:536-571 | user and device are written first; the key bundle is written when built; success iff the bundle and the keychain write succeed |
| Auth.AuthService.RegisterUser | src/services/authService.ts:134-242 | Google, Firebase and the email check fail before allocation and change nothing; after them the counter moves once and the record is stored when both writes succeed; the local records follow the key bundle; a failure leaves the auth state, saved state, keys and ledger alone; success signs in the new user with biometrics off, installs the keys and registers the ledger session |
| Auth.AuthService.RegisterMatched | src/services/authService.ts:154-237 | the same, once both sign-ins succeeded with the given email |
| Auth.AuthService.CompleteRegistration | src/services/authService.ts:161-237 | after allocation, any failure reads "Registration failed" with the auth state, keys and ledger untouched; the local records follow the prepared registration and the bundle; success installs the keys, signs in, and leaves the ledger as `RegisteredLedger` |
| Auth.AuthService.AllocateId | src/services/authService.ts:154-159 | the counter is +1 and saved iff its write succeeds; the id renders the new counter iff it was saved; the record is appended iff both writes succeed |
| Auth.AuthService.SignInRegistered | src/services/authService.ts:208-234 | the ledger is `RegisteredLedger` of the old one (profile stored online, session started), the keys are installed, and the state is signed in with biometrics off and saved |
| Auth.AuthService.LoginRejection | src/services/authService.ts:281-317 | no user, another email, another device, no factor, a failed factor: each reason only when the earlier checks pass |
| Auth.AuthService.BiometricFailureDoesNotFallBack | src/services/authService.ts:302-317 | a failed biometric prompt fails the login even with a password sent |
| Auth.AuthService.LoginUser | src/services/authService.ts:278-382 | a rejection leaves everything, ledger included; a biometric login is tracked; unloadable keys then fail with "Login failed" and the key store untouched; otherwise the derived master key, stored public key and decrypted private key are installed, the ledger is `LoginLedger` of the tracked one, and the state is signed in with the Firestore profile and saved |
| Auth.AuthService.SyncAndSignIn | src/services/authService.ts:331-377 | takes the Firestore profile when present, leaves the ledger as `LoginLedger` of the old one, saves the signed-in state, and fails last when the profile is missing |
| Auth.AuthService.SetupBiometricAuth | src/services/authService.ts:388-422 | sensor first, then a signed-in user, then the key; success stores the alias setup and enables biometrics, and any failure changes nothing |
| Auth.AuthService.Logout | src/services/authService.ts:595-638 | user, device and keys stay stored; the ledger is `LogoutLedger` of the old one (profile offline, session ended); if the Google calls do not throw the state becomes LoggedOut, the saved state is removed and the keys and ledger's user and session cleared; otherwise the state stays |
| Auth.LogoutTwice | src/services/authService.ts:595-638 | two logouts leave the state of one |
| Training.InstructionFallsBack | src/train.py:50 | "instruction" when truthy, else "prompt" when truthy, else the empty string |
| Training.PromptParts | src/train.py:62-65 | three parts iff there is an input, else two |
| Training.PromptTextShape | src/train.py:62-66 | the prompt is the instruction line, the input line when non-empty, and "Response:" joined by newlines; the strip removes nothing |
| Training.PromptInputLine | src/train.py:63-64 | the input line adds 8 + its length, and is there iff the input is non-empty |
| Training.PromptFrame | src/train.py:62-66 | the prompt starts with "Instruction: " and the instruction, and ends with "\nResponse:" |
| Training.FromRecord | src/train.py:49-68 | kept iff the stripped instruction and response are non-empty; non-text instruction or input raises; the example holds the built prompt and the stripped response |
| Training.KeptRecordWellFormed | src/train.py:59-68 | a kept example has a non-empty stripped response and a framed prompt |
| Training.BuiltExampleWellFormed | src/train.py:59-68 | an example built from an instruction, an input and a response that strips to something non-empty is well formed |
| Training.ReadLine | src/train.py:45-49 | a blank line is skipped; only a malformed line or a non-text field raises |
| Training.Outcomes | src/train.py:44-45 | one outcome per line, in order |
| Training.Scan | src/train.py:44-68 | what the loop has kept after n lines, or the first error among them |
| Training.ScanWellFormed | src/train.py:44-68 | every kept example is well formed |
| Training.ScanFailureSticks | src/train.py:49 | once a line raises, later lines do not change the result |
| Training.BlankFileKeepsNothing | src/train.py:46-48 | a file of blank lines keeps nothing |
| Training.Load | src/train.py:41-71 | a missing file, the first bad line, or no examples are errors; a success is non-empty and well formed |
| Training.CollectExamples | src/train.py:44-68 | the loop computes the scan of all lines |
| Training.ReadExamples | src/train.py:44-68 | the lines read into the scan of their outcomes |
| Training.Fit | src/train.py:89-96 | at most max_len ids; nothing cut when it fits; the response keeps a prefix and the prompt a suffix; the prompt is cut only when the response is already gone |
| Training.Repeat | src/train.py:99 | `[v] * n`: n copies of v |
| Training.InstructionDataset.constructor | src/train.py:37-39 | keeps the examples and the tokenizer settings |
| Training.InstructionDataset.GetItem | src/train.py:76-110 | ids are the fitted prompt then response, at most max_len; mask all ones; labels -100 over the prompt and the ids elsewhere |
| Training.ResponseStripIsNoOp | src/train.py:84 | a kept response is already stripped |
| Training.LoadDataset | src/train.py:31-71 | fails iff loading fails, with its error; otherwise a new dataset of the loaded examples |
| Training.PadId | src/train.py:114 | the tokenizer's pad id when set, else its EOS id, else torch's default 0 |
| Training.MaxLength | src/train.py:117 | the longest item's length |
| Training.PadRight | src/train.py:122-129 | `torch.nn.functional.pad` on the right: the row followed by padLen fill values, the row itself when padLen is not positive |
| Training.Collate | src/train.py:116-137 | none iff the batch is empty; every row is its item padded to the longest length with pad id, 0 and -100 |
| Training.PaddedRow | src/train.py:119-132 | a padded row has the common width, keeps the item as its prefix, and pads with pad id, 0 and -100 |
| Generate.BuildPromptMatchesTraining | src/generate.py:6-11 | build_prompt equals the training prompt for the stripped instruction and input |
| Generate.BuildPromptLines | src/generate.py:6-11 | first "Instruction: " and the stripped instruction, an input line iff the stripped input is non-empty, last "Response:" |
| Generate.TrainingExampleMatchesGeneration | src/train.py:50-66 | a kept training example's prompt is what generation builds from the same record fields |

## Left out

- I/O and outside services: AsyncStorage, the keychain, Google Sign-In, Firebase Auth, Firestore, analytics, crashlytics, DeviceInfo and the biometric sensor. Each is an input value per call site, or an in-memory field.
- The native primitives (Argon2id, XChaCha20-Poly1305, Ed25519, X25519, BLAKE2b) are uninterpreted. The wrappers that only forward a call and rethrow are not modelled: `generateSigningKeyPair`, `generateChatKey`, `signData`, `generateSharedSecret` and `secureHash`. The signing key pair and the device fingerprint are inputs.
- Concurrency: the constructors of the services start asynchronous work (`checkBiometricAvailability`, `loadAuthState`, `initializeCounter`) that the TypeScript does not await. The model runs each to completion, in order. The identifier counter has no atomicity claim.
- AtasId.IdAllocator.GenerateId: uses the corrected country lookup `AtasId.CountryCode`. For a name inherited from `Object.prototype`, such as `"constructor"`, the code as written renders the member's text into the identifier (`ATAS-function Object() { [native code] }-…`); that path is exhibited by `AtasId.CountryCodeAsWritten` (see Findings) and not carried into the identifier. The default argument `countryName = 'Default'` is not modelled: the only caller passes a name.
- JsTrim, PyStrip: their own contracts state only that neither end is white space; the slice property is `Text.Trim`'s contract, which both call. Repeating it on them makes the proofs that use them too costly.
- `AtasId.IdAllocator.constructor`: the parse of a stored counter (`parseInt`, which may give NaN) is taken as an integer.
- The access code's modulo bias, and the clock reading used when the random source fails, are plain inputs.
- The parts of `generateDeviceFingerprint` that read device information and the clock (src/services/atasIdService.ts:321-346), and `getAllATASIDs`, are not modelled.
- Firestore `set(..., {merge: true})` with dotted `stats.x` keys is modelled as the intended per-counter increment. The server timestamps and the `createdAt`/`updatedAt`/`lastSeen` fields are left out.
- Firestore errors that the code catches and logs are modelled only where they change the flow: a missing profile in `updateOnlineStatus`, `updateUserProfile` and login's last step. Rethrown errors from `createUserProfile`, `getUserProfile` and `storeCall` are not modelled.
- The chat, message, media and listener parts of the Firebase service (`storeMessage`, `getChatMessages`, `createChat`, `getUserChats`, `updateChatLastMessage`, `getUserActivityHistory`, `uploadEncryptedMedia`, `setupRealtimeListeners`) are not modelled.
- Firebase e-mail sign-in during login is a caught call that changes nothing here (src/services/authService.ts:320-326). Firebase sign-out in logout is likewise caught.
- `Auth.AuthService.LoginUser`: `lastLoginAt` is not modelled. The profile update sends only `isOnline`. `Object.assign` replaces the local record with the Firestore profile as a whole, not field by field.
- `Auth.AuthService.StoreUserData`: an AsyncStorage write that throws is not modelled. Only the bundle's build and the keychain write can fail.
- `Auth.AuthService.SaveAuthState`: a failing write, which the code logs and ignores, is not modelled.
- Registration's `encryptPrivateKey` stores `JSON.stringify` of the blob. The model keeps the blob itself.
- `getAuthState` returns a copy of the state; the state is a value here, so callers read the `authState` field. `isAuthenticated`, `getCurrentUser` and `getCurrentDevice` read one field of it and are not modelled separately.
- `Training.ReadExamples`: every line's outcome is computed before the loop stops at the first raise. Nothing is observable in between, so the result equals reading line by line.
- `Training.FromRecord`: a JSON value that is neither a string nor falsy reaches `.strip()` and raises. The model reports this as `NotText`, without the Python exception type.
- The tokenizer, `json.loads`, torch tensors, `torch.stack` on rows of unequal length, model loading, training and sampling are parameters or left out. `Training.Collate`: with neither a pad id nor an EOS id torch pads with its default 0, and the model does the same.

## Findings

| source | as written | input that shows it | evidently intended | confidence | as-written member | corrected member |
|---|---|---|---|---|---|---|
| src/services/atasIdService.ts:166-169 | `COUNTRY_CODES[name] \|\| COUNTRY_CODES['Default']` looks the name up on a plain object literal, so names of members inherited from Object.prototype are found | country name `"constructor"` yields Object's constructor function, not a code | a name not listed in the table maps to `INT` | not executed | AtasId.CountryCodeAsWritten | AtasId.CountryCode |
