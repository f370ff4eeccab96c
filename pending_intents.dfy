/**
 * Resumption tokens (Android PendingIntents) and the factory that builds
 * them. A token names the activity that performs the interaction, carries
 * that activity's arguments, embeds the original request so the operation
 * can be replayed afterwards, and has the PendingIntent flags.
 */
module PendingIntents {
  import opened Wrappers
  import opened ApiTypes

  /** Build.VERSION_CODES.M */
  const SdkM: int := 23

  datatype Flag = CancelCurrent | OneShot | Immutable

  /** The activity a token starts, with the extras the factory puts on it. */
  datatype Activity =
    | SecurityTokenOperation(requiredInput: RequiredInput, cryptoInput: CryptoInputParcel)
    | PassphraseDialog(requiredInput: RequiredInput, cryptoInput: CryptoInputParcel)
    | SelectPublicKey(selectedMasterKeyIds: seq<KeyId>, noUserIdsCheck: bool,
                      missingEmails: seq<string>, duplicateEmails: seq<string>)
    | ImportFromKeyserver(keyId: KeyId)
    | SelectAllowedKeys(packageName: string)
    | ShowKey(masterKeyId: KeyId)
    | SelectSignKeyId(packageName: string, preferredUserId: Option<string>)
    | RemoteBackup(masterKeyIds: Option<seq<KeyId>>, backupSecret: bool)
    | CreateAccount(packageName: string, accountName: string)
    | ErrorMessage(errorMessage: string)
    | Register(packageName: string, packageCertificate: Bytes)

  /** A token: the activity, the request re-attached for replay, the flags. */
  datatype PendingIntent = PendingIntent(activity: Activity, data: Request, flags: set<Flag>)

  /** The two required-input types that go to the security-token activity... */
  predicate IsSecurityTokenInput(t: RequiredInputType) {
    t == NfcMoveKeyToCard || t == NfcDecrypt || t == NfcSign
  }

  /** ...and the types requiredInputPi handles at all. */
  predicate IsHandledInput(t: RequiredInputType) {
    IsSecurityTokenInput(t) || t == Passphrase
  }

  /**
   * The factory: fixed at construction to the platform SDK level and the
   * request data it re-attaches to every token.
   */
  datatype Factory = Factory(sdkInt: int, pendingIntentData: Request) {

    /** Flags of every token except the register token. */
    function Flags(): (fs: set<Flag>)
      ensures CancelCurrent in fs && OneShot !in fs
      ensures Immutable in fs <==> sdkInt >= SdkM
    {
      if sdkInt >= SdkM then {CancelCurrent, Immutable} else {CancelCurrent}
    }

    /** createInternal: re-attach the request data for pass-through. */
    function CreateInternal(activity: Activity): (pi: PendingIntent)
      ensures pi.activity == activity && pi.data == pendingIntentData
      ensures CancelCurrent in pi.flags && OneShot !in pi.flags
      ensures Immutable in pi.flags <==> sdkInt >= SdkM
    {
      PendingIntent(activity, pendingIntentData, Flags())
    }

    /** requiredInputPi: dispatch on the type of input the engine needs. */
    function RequiredInputPi(requiredInput: RequiredInput, cryptoInput: CryptoInputParcel): (pi: PendingIntent)
      requires IsHandledInput(requiredInput.kind)
      ensures IsSecurityTokenInput(requiredInput.kind) ==>
                pi.activity == SecurityTokenOperation(requiredInput, cryptoInput)
      ensures requiredInput.kind == Passphrase ==>
                pi.activity == PassphraseDialog(requiredInput, cryptoInput)
      ensures pi.data == pendingIntentData && pi.flags == Flags()
    {
      if IsSecurityTokenInput(requiredInput.kind) then
        CreateNfcOperationPendingIntent(requiredInput, cryptoInput)
      else
        CreatePassphrasePendingIntent(requiredInput, cryptoInput)
    }

    function CreateNfcOperationPendingIntent(requiredInput: RequiredInput, cryptoInput: CryptoInputParcel): PendingIntent {
      CreateInternal(SecurityTokenOperation(requiredInput, cryptoInput))
    }

    function CreatePassphrasePendingIntent(requiredInput: RequiredInput, cryptoInput: CryptoInputParcel): PendingIntent {
      CreateInternal(PassphraseDialog(requiredInput, cryptoInput))
    }

    function CreateSelectPublicKeyPendingIntent(keyIds: seq<KeyId>, missingEmails: seq<string>,
                                                duplicateEmails: seq<string>, noUserIdsCheck: bool): (pi: PendingIntent)
      ensures pi.activity.SelectPublicKey?
      ensures pi.activity.selectedMasterKeyIds == keyIds && pi.activity.noUserIdsCheck == noUserIdsCheck
      ensures pi.activity.missingEmails == missingEmails && pi.activity.duplicateEmails == duplicateEmails
      ensures pi.data == pendingIntentData && pi.flags == Flags()
    {
      CreateInternal(SelectPublicKey(keyIds, noUserIdsCheck, missingEmails, duplicateEmails))
    }

    function CreateImportFromKeyserverPendingIntent(masterKeyId: KeyId): PendingIntent {
      CreateInternal(ImportFromKeyserver(masterKeyId))
    }

    function CreateSelectAllowedKeysPendingIntent(packageName: string): PendingIntent {
      CreateInternal(SelectAllowedKeys(packageName))
    }

    function CreateShowKeyPendingIntent(masterKeyId: KeyId): PendingIntent {
      CreateInternal(ShowKey(masterKeyId))
    }

    function CreateSelectSignKeyIdPendingIntent(packageName: string, preferredUserId: Option<string>): PendingIntent {
      CreateInternal(SelectSignKeyId(packageName, preferredUserId))
    }

    function CreateBackupPendingIntent(masterKeyIds: Option<seq<KeyId>>, backupSecret: bool): PendingIntent {
      CreateInternal(RemoteBackup(masterKeyIds, backupSecret))
    }

    function CreateAccountCreationPendingIntent(packageName: string, accountName: string): PendingIntent {
      CreateInternal(CreateAccount(packageName, accountName))
    }

    function CreateErrorPendingIntent(errorMessage: string): PendingIntent {
      CreateInternal(ErrorMessage(errorMessage))
    }

    /** The register token is the one token that is also ONE_SHOT. */
    function CreateRegisterPendingIntent(packageName: string, packageCertificate: Bytes): (pi: PendingIntent)
      ensures pi.activity == Register(packageName, packageCertificate) && pi.data == pendingIntentData
      ensures CancelCurrent in pi.flags && OneShot in pi.flags
      ensures Immutable in pi.flags <==> sdkInt >= SdkM
    {
      var flags := if sdkInt >= SdkM then {CancelCurrent, OneShot, Immutable} else {CancelCurrent, OneShot};
      PendingIntent(Register(packageName, packageCertificate), pendingIntentData, flags)
    }

    /** Every token the factory can build, by the builder's arguments. */
    function Build(activity: Activity): (pi: PendingIntent)
    {
      match activity
      case SecurityTokenOperation(r, c) => CreateNfcOperationPendingIntent(r, c)
      case PassphraseDialog(r, c) => CreatePassphrasePendingIntent(r, c)
      case SelectPublicKey(ids, no, missing, dup) => CreateSelectPublicKeyPendingIntent(ids, missing, dup, no)
      case ImportFromKeyserver(k) => CreateImportFromKeyserverPendingIntent(k)
      case SelectAllowedKeys(p) => CreateSelectAllowedKeysPendingIntent(p)
      case ShowKey(k) => CreateShowKeyPendingIntent(k)
      case SelectSignKeyId(p, u) => CreateSelectSignKeyIdPendingIntent(p, u)
      case RemoteBackup(ids, s) => CreateBackupPendingIntent(ids, s)
      case CreateAccount(p, a) => CreateAccountCreationPendingIntent(p, a)
      case ErrorMessage(m) => CreateErrorPendingIntent(m)
      case Register(p, c) => CreateRegisterPendingIntent(p, c)
    }
  }

  /**
   * Every token carries exactly the activity and arguments it was built
   * from and the factory's original request, unchanged; it is CANCEL_CURRENT,
   * IMMUTABLE exactly from SDK level M on, and ONE_SHOT exactly when it is
   * the register token.
   */
  lemma TokensReplayOriginalRequest(f: Factory, activity: Activity)
    ensures f.Build(activity).activity == activity
    ensures f.Build(activity).data == f.pendingIntentData
    ensures CancelCurrent in f.Build(activity).flags
    ensures Immutable in f.Build(activity).flags <==> f.sdkInt >= SdkM
    ensures OneShot in f.Build(activity).flags <==> activity.Register?
  {
    if !activity.Register? {
      assert f.Build(activity) == f.CreateInternal(activity);
    }
  }
}
