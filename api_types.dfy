/**
 * The vocabulary of the OpenPGP remote API as the service sees it: the
 * request Intent with its extras, and the parcels exchanged with the
 * crypto engine (required input, cached crypto input, signature and
 * decryption results, metadata).
 */
module ApiTypes {
  import opened Wrappers

  /** A 64-bit OpenPGP master or sub key id. */
  type KeyId = int

  /** Constants.key.none: the "no key" sentinel. */
  const KeyNone: KeyId := 0

  type Passphrase = seq<char>
  type Bytes = seq<bv8>

  /** The actions the service knows, plus any other action string. */
  datatype Action =
    | ActionCleartextSign
    | ActionSign                 // deprecated alias of ActionCleartextSign
    | ActionDetachedSign
    | ActionEncrypt
    | ActionSignAndEncrypt
    | ActionDecryptVerify
    | ActionDecryptMetadata
    | ActionGetSignKeyId
    | ActionGetKeyIds
    | ActionGetKey
    | ActionBackup
    | OtherAction(name: string)

  /**
   * The request Intent. `None` stands for an extra that is absent (or an
   * action that is null); each field is one extra the service reads.
   * `cacheId` is the identity under which the crypto-input cache keeps
   * secrets supplied during an earlier interaction for this request.
   */
  datatype Request = Request(
    action: Option<Action>,
    apiVersion: Option<int>,              // EXTRA_API_VERSION
    keyIds: Option<seq<KeyId>>,           // EXTRA_KEY_IDS
    userIds: Option<seq<string>>,         // EXTRA_USER_IDS
    signKeyId: Option<KeyId>,             // EXTRA_SIGN_KEY_ID
    keyId: Option<KeyId>,                 // EXTRA_KEY_ID
    userId: Option<string>,               // EXTRA_USER_ID (preferred user id)
    passphrase: Option<Passphrase>,       // EXTRA_PASSPHRASE
    requestAsciiArmor: Option<bool>,      // EXTRA_REQUEST_ASCII_ARMOR
    originalFilename: Option<string>,     // EXTRA_ORIGINAL_FILENAME
    enableCompression: Option<bool>,      // EXTRA_ENABLE_COMPRESSION
    detachedSignature: Option<Bytes>,     // EXTRA_DETACHED_SIGNATURE
    accountName: Option<string>,          // EXTRA_ACCOUNT_NAME
    backupSecret: Option<bool>,           // EXTRA_BACKUP_SECRET
    cacheId: Option<nat>                  // identity in the crypto-input cache
  )

  /** getIntExtra(EXTRA_API_VERSION, -1). */
  function ApiVersion(data: Request): (v: int)
    ensures data.apiVersion.None? ==> v == -1
    ensures data.apiVersion.Some? ==> v == data.apiVersion.value
  {
    data.apiVersion.GetOr(-1)
  }

  /** The API versions this service implements. */
  const SupportedVersions: seq<int> := [3, 4, 5, 6, 7, 8, 9, 10]

  /** What the crypto engine may ask for before it can go on. */
  datatype RequiredInputType =
    | Passphrase
    | NfcMoveKeyToCard
    | NfcDecrypt
    | NfcSign
    | OtherRequiredInput(name: string)   // further types of RequiredInputParcel

  datatype RequiredInput = RequiredInput(
    kind: RequiredInputType,
    masterKeyId: Option<KeyId>,
    subKeyId: Option<KeyId>
  )

  /**
   * The secrets and partial results collected so far for one operation:
   * signature creation time, passphrase, and already computed signatures
   * (hash to signature) from a security token.
   */
  datatype CryptoInputParcel = CryptoInputParcel(
    signatureTime: Option<int>,
    passphrase: Option<Passphrase>,
    cryptoData: map<Bytes, Bytes>
  )

  /** OpenPgpSignatureResult's result codes. */
  datatype SignatureStatus =
    | NoSignature
    | InvalidSignature
    | ValidConfirmed
    | KeyMissing
    | ValidUnconfirmed
    | InvalidKeyRevoked
    | InvalidKeyExpired
    | InvalidInsecure

  datatype SignatureResult = SignatureResult(
    status: SignatureStatus,
    keyId: KeyId,
    signatureOnly: bool     // deprecated flag for clients below version 8
  )

  /** OpenPgpDecryptionResult's result codes. */
  datatype DecryptionStatus = NotEncrypted | InsecureEncryption | Encrypted

  datatype DecryptionResult = DecryptionResult(status: DecryptionStatus)

  /** OpenPgpMetadata: filename, MIME type, time, length, charset. */
  datatype Metadata = Metadata(
    filename: string,
    mimeType: string,
    modificationTime: int,
    originalSize: int,
    charset: Option<string>
  )
}
