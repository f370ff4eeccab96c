/**
 * signImpl and encryptAndSignImpl: resolve the signing key and the
 * recipients, prepare the engine's input and crypto input, run the engine
 * and turn its pending / success / failure outcome into the answer.
 */
module SignEncrypt {
  import opened Wrappers
  import opened ApiTypes
  import opened PendingIntents
  import opened Results
  import opened Collaborators
  import opened CryptoInputCache
  import opened SignKey
  import opened EmailKeyResolution
  import opened EngineReplies

  /** What a handler gives the engine, or the answer it returns before reaching it. */
  datatype Prepared = Ready(input: SignEncryptInput, cryptoInput: CryptoInputParcel) | Early(result: Result)

  datatype SigningKeys = SignWith(masterKeyId: KeyId, subKeyId: KeyId) | StopWith(result: Result)

  /**
   * The signing master key and its first usable signing subkey. An
   * interaction from getSignKeyMasterId is returned as it is; a resolved
   * "none" key is the error "No signing key given"; a key without a usable
   * signing subkey is the error "signing subkey not found!".
   */
  function SigningKeysFor(data: Request, svc: Services): (k: SigningKeys)
    ensures GetSignKeyMasterId(data, svc).SignKeyInteraction? ==>
              k == StopWith(GetSignKeyMasterId(data, svc).result)
    ensures GetSignKeyMasterId(data, svc) == SignKeyFound(KeyNone) ==>
              k == StopWith(GenericErrorResult(Some("No signing key given")))
    ensures GetSignKeyMasterId(data, svc).SignKeyFound? && GetSignKeyMasterId(data, svc).id != KeyNone ==>
              var id := GetSignKeyMasterId(data, svc).id;
              if svc.secretSignSubKey(id).Some? then k == SignWith(id, svc.secretSignSubKey(id).value)
              else k == StopWith(GenericErrorResult(Some("signing subkey not found!")))
  {
    match GetSignKeyMasterId(data, svc)
    case SignKeyInteraction(r) => StopWith(r)
    case SignKeyFound(signKeyId) =>
      if signKeyId == KeyNone then
        StopWith(GenericErrorResult(Some("No signing key given")))
      else
        match svc.secretSignSubKey(signKeyId)
        case Some(signSubKeyId) => SignWith(signKeyId, signSubKeyId)
        case None => StopWith(GenericErrorResult(Some("signing subkey not found!")))
  }

  /**
   * The engine's answer. Pending: the token for the required input.
   * Success: SUCCESS, with the detached signature and its digest name only
   * when one was produced and `returnDetached` holds. Failure: GENERIC_ERROR
   * with the engine's last log message.
   */
  function SignEncryptReply(f: Factory, outcome: SignEncryptOutcome, returnDetached: bool): (reply: Reply)
    ensures outcome.SignEncryptPending? ==> reply == PendingReply(f, outcome.requiredInput, outcome.cryptoInput)
    ensures outcome.SignEncryptSuccess? ==>
              reply.Replied? && reply.result.Success? && reply.result.resultIntent.None? &&
              (reply.result.payload.DetachedSignaturePayload? <==> returnDetached && outcome.detachedSignature.Some?) &&
              (reply.result.payload.DetachedSignaturePayload? ==>
                 reply.result.payload == DetachedSignaturePayload(outcome.detachedSignature.value, outcome.micAlgDigestName)) &&
              (!reply.result.payload.DetachedSignaturePayload? ==> reply.result.payload == NoPayload)
    ensures outcome.SignEncryptFailure? ==> reply == Replied(GenericErrorResult(Some(outcome.lastLogMessage)))
  {
    match outcome
    case SignEncryptPending(requiredInput, cryptoInput) => PendingReply(f, requiredInput, cryptoInput)
    case SignEncryptSuccess(detached, micAlg) =>
      if detached.Some? && returnDetached then
        Replied(Success(DetachedSignaturePayload(detached.value, micAlg), None))
      else
        Replied(Success(NoPayload, None))
    case SignEncryptFailure(message) => Replied(GenericErrorResult(Some(message)))
  }

  /**
   * signImpl up to the engine call. The engine is reached exactly when a
   * signing key and subkey are found and the input can be read; it then
   * signs with that key, armored when cleartext or as requested (default
   * on), detached unless cleartext, writing output only for cleartext, with
   * the crypto input in which an explicit passphrase overrides the cache.
   */
  function PrepareSign(data: Request, streams: Streams, cleartextSign: bool, svc: Services): (p: Prepared)
    ensures p.Ready? <==> SigningKeysFor(data, svc).SignWith? && streams.input.Readable?
    ensures p.Ready? ==>
              p.input.signatureMasterKeyId == Some(SigningKeysFor(data, svc).masterKeyId) &&
              p.input.signatureSubKeyId == Some(SigningKeysFor(data, svc).subKeyId) &&
              p.input.asciiArmor == (cleartextSign || data.requestAsciiArmor.GetOr(true)) &&
              p.input.cleartextSignature == cleartextSign && p.input.detachedSignature == !cleartextSign &&
              p.input.encryption.None? && p.input.additionalEncryptId.None? &&
              p.input.writesOutput == (cleartextSign && streams.hasOutput) &&
              p.cryptoInput == CryptoInputFor(data, svc, Some(svc.now))
    ensures p.Ready? && data.passphrase.Some? ==> p.cryptoInput.passphrase == data.passphrase
    ensures SigningKeysFor(data, svc).StopWith? ==> p == Early(SigningKeysFor(data, svc).result)
    ensures SigningKeysFor(data, svc).SignWith? && !streams.input.Readable? ==>
              p == Early(InputFailure(streams.input, svc.nullPointerMessage).value)
  {
    var asciiArmor := cleartextSign || data.requestAsciiArmor.GetOr(true);
    match SigningKeysFor(data, svc)
    case StopWith(r) => Early(r)
    case SignWith(masterKeyId, subKeyId) =>
      match InputFailure(streams.input, svc.nullPointerMessage)
      case Some(r) => Early(r)
      case None =>
        var input := SignEncryptInput(asciiArmor, cleartextSign, !cleartextSign, Some(masterKeyId), Some(subKeyId),
                                      None, None, cleartextSign && streams.hasOutput);
        Ready(input, CryptoInputFor(data, svc, Some(svc.now)))
  }

  /** signImpl. */
  function SignImpl(data: Request, streams: Streams, cleartextSign: bool, svc: Services): (reply: Reply)
    ensures PrepareSign(data, streams, cleartextSign, svc).Early? ==>
              reply == Replied(PrepareSign(data, streams, cleartextSign, svc).result)
    ensures PrepareSign(data, streams, cleartextSign, svc).Ready? ==>
              var p := PrepareSign(data, streams, cleartextSign, svc);
              reply == SignEncryptReply(Factory(svc.sdkInt, data), svc.signEncrypt(p.input, p.cryptoInput), !cleartextSign)
  {
    match PrepareSign(data, streams, cleartextSign, svc)
    case Early(r) => Replied(r)
    case Ready(input, cryptoInput) =>
      SignEncryptReply(Factory(svc.sdkInt, data), svc.signEncrypt(input, cryptoInput), !cleartextSign)
  }

  datatype Recipients = EncryptTo(keyIds: seq<KeyId>) | AskUser(result: Result)

  /**
   * The recipients: EXTRA_KEY_IDS when present, otherwise the key ids the
   * emails in EXTRA_USER_IDS resolve to; an ambiguous resolution is
   * returned to the caller as it is.
   */
  function RecipientsFor(data: Request, svc: Services): (r: Recipients)
    ensures data.keyIds.Some? ==> r == EncryptTo(data.keyIds.value)
    ensures data.keyIds.None? ==>
              var resolved := KeyIdsFromEmails(Factory(svc.sdkInt, data), data.userIds, svc.keysForEmail);
              (r.EncryptTo? <==> resolved.Success?) &&
              (r.EncryptTo? ==> r.keyIds == resolved.payload.keyIds) &&
              (r.AskUser? ==> r.result == resolved && r.result.InteractionRequired?)
  {
    if data.keyIds.Some? then EncryptTo(data.keyIds.value)
    else
      var result := KeyIdsFromEmails(Factory(svc.sdkInt, data), data.userIds, svc.keysForEmail);
      if result.Success? then EncryptTo(result.payload.keyIds) else AskUser(result)
  }

  /** The compression the request asks for (EXTRA_ENABLE_COMPRESSION, default on). */
  function CompressionFor(data: Request): (c: Compression)
    ensures c == Uncompressed <==> data.enableCompression == Some(false)
  {
    if data.enableCompression.GetOr(true) then DefaultCompression else Uncompressed
  }

  /** Before version 7, self-encryption to the account key, or the account-creation interaction. */
  function LegacySelfEncrypt(data: Request, svc: Services, additional: Option<KeyId>): (r: Recipients)
    ensures ApiVersion(data) >= 7 ==> r == EncryptTo(if additional.Some? then [additional.value] else [])
    ensures ApiVersion(data) < 7 && HasAccountKey(svc, AccountName(data)) ==>
              r == EncryptTo([svc.accountKey(AccountName(data)).value])
    ensures ApiVersion(data) < 7 && !HasAccountKey(svc, AccountName(data)) ==>
              r == AskUser(CreateAccountIntent(data, AccountName(data), svc))
  {
    if ApiVersion(data) < 7 then
      var accName := AccountName(data);
      if !HasAccountKey(svc, accName) then AskUser(CreateAccountIntent(data, accName, svc))
      else EncryptTo([svc.accountKey(accName).value])
    else
      EncryptTo(if additional.Some? then [additional.value] else [])
  }

  function FirstOf(ids: seq<KeyId>): Option<KeyId> {
    if |ids| == 0 then None else Some(ids[0])
  }

  /**
   * encryptAndSignImpl up to the engine call, in the source's order:
   * recipients, input stream, signing key (when signing), the legacy
   * account, then the crypto input. When the engine is reached it encrypts
   * to the resolved recipients (failing on missing keys), with the requested
   * armor, compression and file name, additionally to the signing key or,
   * before version 7, to the account key, and with the crypto input in which
   * an explicit passphrase overrides the cache.
   */
  function PrepareEncrypt(data: Request, streams: Streams, sign: bool, svc: Services): (p: Prepared)
    ensures p.Ready? <==>
              RecipientsFor(data, svc).EncryptTo? && streams.input.Readable? &&
              (!sign || SigningKeysFor(data, svc).SignWith?) &&
              (ApiVersion(data) >= 7 || HasAccountKey(svc, AccountName(data)))
    ensures RecipientsFor(data, svc).AskUser? ==> p == Early(RecipientsFor(data, svc).result)
    ensures RecipientsFor(data, svc).EncryptTo? && !streams.input.Readable? ==>
              p == Early(InputFailure(streams.input, svc.nullPointerMessage).value)
    ensures RecipientsFor(data, svc).EncryptTo? && streams.input.Readable? &&
            sign && SigningKeysFor(data, svc).StopWith? ==>
              p == Early(SigningKeysFor(data, svc).result)
    ensures RecipientsFor(data, svc).EncryptTo? && streams.input.Readable? &&
            (!sign || SigningKeysFor(data, svc).SignWith?) &&
            ApiVersion(data) < 7 && !HasAccountKey(svc, AccountName(data)) ==>
              p == Early(CreateAccountIntent(data, AccountName(data), svc))
    ensures p.Ready? ==>
              RecipientsFor(data, svc).EncryptTo? && streams.input.Readable? &&
              !p.input.cleartextSignature && !p.input.detachedSignature &&
              p.input.encryption == Some(EncryptionSettings(RecipientsFor(data, svc).keyIds, CompressionFor(data), true,
                                                            data.originalFilename.GetOr(""))) &&
              p.input.asciiArmor == data.requestAsciiArmor.GetOr(true) &&
              p.input.writesOutput == streams.hasOutput &&
              p.cryptoInput == CryptoInputFor(data, svc, Some(svc.now))
    ensures p.Ready? && sign ==>
              SigningKeysFor(data, svc).SignWith? &&
              p.input.signatureMasterKeyId == Some(SigningKeysFor(data, svc).masterKeyId) &&
              p.input.signatureSubKeyId == Some(SigningKeysFor(data, svc).subKeyId)
    ensures p.Ready? && !sign ==> p.input.signatureMasterKeyId.None? && p.input.signatureSubKeyId.None?
    ensures p.Ready? && ApiVersion(data) < 7 ==>
              HasAccountKey(svc, AccountName(data)) &&
              p.input.additionalEncryptId == Some(svc.accountKey(AccountName(data)).value)
    ensures p.Ready? && ApiVersion(data) >= 7 ==>
              p.input.additionalEncryptId == (if sign then Some(SigningKeysFor(data, svc).masterKeyId) else None)
    ensures p.Ready? && data.passphrase.Some? ==> p.cryptoInput.passphrase == data.passphrase
  {
    match RecipientsFor(data, svc)
    case AskUser(r) => Early(r)
    case EncryptTo(keyIds) =>
      match InputFailure(streams.input, svc.nullPointerMessage)
      case Some(r) => Early(r)
      case None =>
        var signing := if sign then SigningKeysFor(data, svc) else SignWith(KeyNone, KeyNone);
        match signing
        case StopWith(r) => Early(r)
        case SignWith(masterKeyId, subKeyId) =>
          var additional := if sign then Some(masterKeyId) else None;
          match LegacySelfEncrypt(data, svc, additional)
          case AskUser(r) => Early(r)
          case EncryptTo(selfIds) =>
            var settings := EncryptionSettings(keyIds, CompressionFor(data), true, data.originalFilename.GetOr(""));
            var input := SignEncryptInput(data.requestAsciiArmor.GetOr(true), false, false,
                                          if sign then Some(masterKeyId) else None,
                                          if sign then Some(subKeyId) else None,
                                          Some(settings), FirstOf(selfIds), streams.hasOutput);
            Ready(input, CryptoInputFor(data, svc, Some(svc.now)))
  }

  /** encryptAndSignImpl: on success only SUCCESS, without a payload. */
  function EncryptAndSignImpl(data: Request, streams: Streams, sign: bool, svc: Services): (reply: Reply)
    ensures PrepareEncrypt(data, streams, sign, svc).Early? ==>
              reply == Replied(PrepareEncrypt(data, streams, sign, svc).result)
    ensures PrepareEncrypt(data, streams, sign, svc).Ready? ==>
              var p := PrepareEncrypt(data, streams, sign, svc);
              reply == SignEncryptReply(Factory(svc.sdkInt, data), svc.signEncrypt(p.input, p.cryptoInput), false)
  {
    match PrepareEncrypt(data, streams, sign, svc)
    case Early(r) => Replied(r)
    case Ready(input, cryptoInput) =>
      SignEncryptReply(Factory(svc.sdkInt, data), svc.signEncrypt(input, cryptoInput), false)
  }
}
