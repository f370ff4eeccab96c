/**
 * The collaborators the service consults, as inputs: the key database,
 * the permission helper, the crypto-input cache, the clock, the platform
 * SDK level, the two streams, and the crypto engine's three operations
 * as functions from what they are given to a tri-state outcome.
 */
module Collaborators {
  import opened Wrappers
  import opened ApiTypes
  import opened Results

  /** The input stream as seen by inputStream.available(). */
  datatype InputStream =
    | NoInput                              // no input descriptor: a null stream
    | Readable
    | Unreadable(ioMessage: string)        // available() throws IOException

  datatype Streams = Streams(input: InputStream, hasOutput: bool)

  datatype Compression = DefaultCompression | Uncompressed

  /** The encryption part of PgpSignEncryptInputParcel and InputData's file name. */
  datatype EncryptionSettings = EncryptionSettings(
    encryptionMasterKeyIds: seq<KeyId>,
    compression: Compression,
    failOnMissingEncryptionKeyIds: bool,
    originalFilename: string
  )

  /** PgpSignEncryptInputParcel, plus whether the engine gets an output stream. */
  datatype SignEncryptInput = SignEncryptInput(
    asciiArmor: bool,
    cleartextSignature: bool,
    detachedSignature: bool,
    signatureMasterKeyId: Option<KeyId>,
    signatureSubKeyId: Option<KeyId>,
    encryption: Option<EncryptionSettings>,
    additionalEncryptId: Option<KeyId>,
    writesOutput: bool
  )

  /** PgpSignEncryptResult: pending, success, or failure with its last log entry. */
  datatype SignEncryptOutcome =
    | SignEncryptPending(requiredInput: RequiredInput, cryptoInput: CryptoInputParcel)
    | SignEncryptSuccess(detachedSignature: Option<Bytes>, micAlgDigestName: string)
    | SignEncryptFailure(lastLogMessage: string)

  /** PgpDecryptVerifyInputParcel, plus whether an output stream is given. */
  datatype DecryptVerifyInput = DecryptVerifyInput(
    allowSymmetricDecryption: bool,
    allowedKeyIds: set<KeyId>,
    decryptMetadataOnly: bool,
    detachedSignature: Option<Bytes>,
    writesOutput: bool
  )

  /** DecryptVerifyResult. */
  datatype DecryptVerifyOutcome =
    | DecryptVerifyPending(requiredInput: RequiredInput, cryptoInput: CryptoInputParcel)
    | DecryptVerifySuccess(signature: SignatureResult,
                           decryption: Option<DecryptionResult>,
                           metadata: Option<Metadata>)
    | DecryptVerifyFailure(keysDisallowed: bool, lastLogMessage: string)

  /**
   * BackupKeyringParcel (its output URI is always null here), together with
   * whether the operation is given an output stream to write to.
   */
  datatype BackupInput = BackupInput(masterKeyIds: Option<seq<KeyId>>, backupSecret: bool, writesOutput: bool)

  /** ExportResult. */
  datatype BackupOutcome = BackupSuccess | BackupFailure(lastLogMessage: string)

  datatype Services = Services(
    callingPackage: string,
    /** ApiPermissionHelper.isAllowed: None when the caller may proceed. */
    permission: Request -> Option<Result>,
    /** The key of account settings by account name; None when there is no account. */
    accountKey: string -> Option<KeyId>,
    /** Master key ids of the non-revoked, non-expired keys bound to an email, in query order. */
    keysForEmail: string -> seq<KeyId>,
    /** First usable signing subkey of a master key; None when the key is not found. */
    secretSignSubKey: KeyId -> Option<KeyId>,
    /** Whether a public key ring with this master key id is in the database. */
    hasPublicKeyRing: KeyId -> bool,
    /** Failure of writing a key ring to the output stream, if it fails. */
    keyEncodingFault: Option<string>,
    /** Keys the calling app may decrypt with, and the keys of its legacy accounts. */
    allowedKeyIds: set<KeyId>,
    accountKeyIds: set<KeyId>,
    /** CryptoInputParcelCacheService's entries. */
    cache: map<nat, CryptoInputParcel>,
    now: int,
    sdkInt: int,
    /** The message the runtime gives the NullPointerException of a call on a null stream, if any. */
    nullPointerMessage: Option<string>,
    signEncrypt: (SignEncryptInput, CryptoInputParcel) -> SignEncryptOutcome,
    decryptVerify: (DecryptVerifyInput, CryptoInputParcel) -> DecryptVerifyOutcome,
    backup: (BackupInput, CryptoInputParcel) -> BackupOutcome
  )
}
