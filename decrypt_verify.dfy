/**
 * decryptAndVerifyImpl: decrypt and/or verify with the keys the calling app
 * may use, then answer with the signature result rewritten for the
 * client's API version, the version-gated extras, and a token chosen from
 * the signature result as the engine reported it.
 */
module DecryptVerify {
  import opened Wrappers
  import opened ApiTypes
  import opened PendingIntents
  import opened Results
  import opened Collaborators
  import opened CryptoInputCache
  import opened EngineReplies
  import opened Compatibility

  /** Signature statuses for which the signer's key is in the database. */
  predicate SignerKeyKnown(s: SignatureStatus) {
    s == ValidConfirmed || s == ValidUnconfirmed || s == InvalidKeyRevoked || s == InvalidKeyExpired || s == InvalidInsecure
  }

  /**
   * The token attached to a successful result: import the signer's key from
   * a key server when it is missing, show it when it is known, none when
   * there is no signature or it is simply invalid.
   */
  function ContextualToken(f: Factory, sig: SignatureResult): (t: Option<PendingIntent>)
    ensures sig.status == KeyMissing <==> t.Some? && t.value.activity == ImportFromKeyserver(sig.keyId)
    ensures SignerKeyKnown(sig.status) <==> t.Some? && t.value.activity == ShowKey(sig.keyId)
    ensures t.None? <==> sig.status == NoSignature || sig.status == InvalidSignature
    ensures t.Some? ==> t.value.data == f.pendingIntentData
  {
    match sig.status
    case KeyMissing => Some(f.CreateImportFromKeyserverPendingIntent(sig.keyId))
    case ValidConfirmed | ValidUnconfirmed | InvalidKeyRevoked | InvalidKeyExpired | InvalidInsecure =>
      Some(f.CreateShowKeyPendingIntent(sig.keyId))
    case NoSignature | InvalidSignature => None
  }

  /**
   * The SUCCESS answer for a client of `version`. Below version 8 the
   * decryption result is dereferenced unchecked, so its absence is a
   * NullPointerException.
   */
  function DecryptSuccessReply(version: int, f: Factory, sig: SignatureResult,
                               decryption: Option<DecryptionResult>, metadata: Option<Metadata>): (reply: Reply)
    ensures reply.Thrown? <==> !KnowsExtra(version, DecryptionExtra) && decryption.None?
    ensures reply.Replied? ==>
              reply.result.Success? && reply.result.resultIntent == ContextualToken(f, sig) &&
              reply.result.payload.DecryptPayload? &&
              reply.result.payload.signature == SignatureExtra(version, sig, decryption) &&
              reply.result.payload.decryption == Gate(version, DecryptionExtra, decryption) &&
              reply.result.payload.metadata == Gate(version, MetadataExtra, metadata) &&
              (reply.result.payload.charset.Some? <==> metadata.Some? && metadata.value.charset.Some?) &&
              (reply.result.payload.charset.Some? ==> reply.result.payload.charset == metadata.value.charset)
  {
    if !KnowsExtra(version, DecryptionExtra) && decryption.None? then
      Thrown("NullPointerException")
    else
      var charset := if metadata.Some? then metadata.value.charset else None;
      Replied(Success(DecryptPayload(SignatureExtra(version, sig, decryption),
                                     Gate(version, DecryptionExtra, decryption),
                                     Gate(version, MetadataExtra, metadata),
                                     Gate(version, CharsetExtra, charset)),
                      ContextualToken(f, sig)))
  }

  /** The keys the caller may decrypt with; before version 7 also its accounts' keys. */
  function AllowedKeyIds(data: Request, svc: Services): (ids: set<KeyId>)
    ensures svc.allowedKeyIds <= ids
    ensures ApiVersion(data) >= 7 ==> ids == svc.allowedKeyIds
    ensures ApiVersion(data) < 7 ==> ids == svc.allowedKeyIds + svc.accountKeyIds
  {
    if ApiVersion(data) < 7 then svc.allowedKeyIds + svc.accountKeyIds else svc.allowedKeyIds
  }

  /**
   * What the engine is given: no symmetric decryption, the allowed keys,
   * the metadata-only flag, the detached signature, an output stream unless
   * only metadata is wanted, and a crypto input without signature time in
   * which an explicit passphrase overrides the cache.
   */
  function DecryptInput(data: Request, streams: Streams, decryptMetadataOnly: bool, svc: Services): (input: DecryptVerifyInput)
    ensures !input.allowSymmetricDecryption && input.decryptMetadataOnly == decryptMetadataOnly
    ensures input.allowedKeyIds == AllowedKeyIds(data, svc) && input.detachedSignature == data.detachedSignature
    ensures input.writesOutput == (streams.hasOutput && !decryptMetadataOnly)
  {
    DecryptVerifyInput(false, AllowedKeyIds(data, svc), decryptMetadataOnly, data.detachedSignature,
                       streams.hasOutput && !decryptMetadataOnly)
  }

  /** decryptAndVerifyImpl, stated against the compatibility table. */
  function DecryptAndVerify(data: Request, streams: Streams, decryptMetadataOnly: bool, svc: Services): (reply: Reply)
    ensures streams.input.NoInput? ==> reply == Thrown("NullPointerException")
    ensures streams.input.Unreadable? ==> reply == Replied(GenericErrorResult(Some(streams.input.ioMessage)))
    ensures streams.input.Readable? ==>
              var f := Factory(svc.sdkInt, data);
              var outcome := svc.decryptVerify(DecryptInput(data, streams, decryptMetadataOnly, svc), CryptoInputFor(data, svc, None));
              && (outcome.DecryptVerifyPending? ==> reply == PendingReply(f, outcome.requiredInput, outcome.cryptoInput))
              && (outcome.DecryptVerifySuccess? ==>
                    reply == DecryptSuccessReply(ApiVersion(data), f, outcome.signature, outcome.decryption, outcome.metadata))
              && (outcome.DecryptVerifyFailure? && outcome.keysDisallowed ==>
                    reply == Replied(InteractionRequired(f.CreateSelectAllowedKeysPendingIntent(svc.callingPackage))))
              && (outcome.DecryptVerifyFailure? && !outcome.keysDisallowed ==>
                    reply == Replied(GenericErrorResult(Some(outcome.lastLogMessage))))
  {
    match streams.input
    case NoInput => Thrown("NullPointerException")
    case Unreadable(message) => Replied(GenericErrorResult(Some(message)))
    case Readable =>
      var f := Factory(svc.sdkInt, data);
      var outcome := svc.decryptVerify(DecryptInput(data, streams, decryptMetadataOnly, svc), CryptoInputFor(data, svc, None));
      match outcome
      case DecryptVerifyPending(requiredInput, cryptoInput) => PendingReply(f, requiredInput, cryptoInput)
      case DecryptVerifySuccess(sig, decryption, metadata) =>
        DecryptSuccessReply(ApiVersion(data), f, sig, decryption, metadata)
      case DecryptVerifyFailure(keysDisallowed, message) =>
        if keysDisallowed then Replied(InteractionRequired(f.CreateSelectAllowedKeysPendingIntent(svc.callingPackage)))
        else Replied(GenericErrorResult(Some(message)))
  }

  /**
   * An engine refusal because the caller may not use the message's keys is
   * never an error: the user is asked which keys the caller may use.
   */
  lemma KeysDisallowedAsksForAllowedKeys(data: Request, streams: Streams, decryptMetadataOnly: bool, svc: Services, message: string)
    requires streams.input == Readable
    requires svc.decryptVerify(DecryptInput(data, streams, decryptMetadataOnly, svc), CryptoInputFor(data, svc, None))
               == DecryptVerifyFailure(true, message)
    ensures DecryptAndVerify(data, streams, decryptMetadataOnly, svc)
              == Replied(InteractionRequired(Factory(svc.sdkInt, data).CreateSelectAllowedKeysPendingIntent(svc.callingPackage)))
  {
  }

  /**
   * A clean engine run gives SUCCESS, except for a pre-8 client when the
   * engine reports no decryption result; from version 8 on the client sees
   * the engine's signature, decryption result and metadata unchanged.
   */
  lemma EngineSuccessIsSuccess(version: int, f: Factory, sig: SignatureResult,
                               decryption: Option<DecryptionResult>, metadata: Option<Metadata>)
    ensures DecryptSuccessReply(version, f, sig, decryption, metadata).Replied? <==> version >= 8 || decryption.Some?
    ensures DecryptSuccessReply(version, f, sig, decryption, metadata).Replied? ==>
              DecryptSuccessReply(version, f, sig, decryption, metadata).result.Success?
    ensures version >= 8 ==>
              DecryptSuccessReply(version, f, sig, decryption, metadata)
                == Replied(Success(DecryptPayload(Some(sig), decryption, metadata,
                                                  if metadata.Some? then metadata.value.charset else None),
                                   ContextualToken(f, sig)))
  {
    if version >= 8 {
      CurrentClientsSeeEngineResult(version, sig, decryption);
    }
  }

  /**
   * The token is chosen before the status is downgraded: a revoked key is an
   * invalid signature to a version-4 client, yet the client is still offered
   * to show that key.
   */
  lemma TokenFollowsEngineStatus(f: Factory, keyId: KeyId, decryption: DecryptionResult)
    ensures var reply := DecryptSuccessReply(4, f, SignatureResult(InvalidKeyRevoked, keyId, false), Some(decryption), None);
            reply.Replied? && reply.result.Success?
            && reply.result.payload.signature == Some(SignatureResult(InvalidSignature, keyId, decryption.status == NotEncrypted))
            && reply.result.resultIntent == Some(f.CreateShowKeyPendingIntent(keyId))
  {
  }

  /** Asking only for metadata never lets the engine write plaintext out. */
  lemma MetadataOnlyWritesNothing(data: Request, streams: Streams, svc: Services)
    ensures !DecryptInput(data, streams, true, svc).writesOutput
  {
  }

  /** The engine's signature result object, which the handler rewrites in place. */
  class OpenPgpSignatureResult {
    var result: SignatureStatus
    const keyId: KeyId
    var signatureOnly: bool

    constructor (sig: SignatureResult)
      ensures Value() == sig
    {
      result, keyId, signatureOnly := sig.status, sig.keyId, sig.signatureOnly;
    }

    function Value(): SignatureResult
      reads this
    {
      SignatureResult(result, keyId, signatureOnly)
    }

    method SetResult(status: SignatureStatus)
      modifies this
      ensures Value() == old(Value()).(status := status)
    {
      result := status;
    }

    method SetSignatureOnly(b: bool)
      modifies this
      ensures Value() == old(Value()).(signatureOnly := b)
    {
      signatureOnly := b;
    }
  }

  /**
   * decryptAndVerifyImpl as the service runs it: the result Intent is built
   * extra by extra, the signature extra refers to the engine's result object
   * and that object is then downgraded in place for older clients.
   */
  method DecryptAndVerifyImpl(data: Request, streams: Streams, decryptMetadataOnly: bool, svc: Services)
    returns (reply: Reply)
    ensures reply == DecryptAndVerify(data, streams, decryptMetadataOnly, svc)
  {
    var allowedKeyIds := svc.allowedKeyIds;
    if ApiVersion(data) < 7 {
      allowedKeyIds := allowedKeyIds + svc.accountKeyIds;
    }
    var cryptoInput := CryptoInputFor(data, svc, None);
    if streams.input.NoInput? {
      return Thrown("NullPointerException");
    } else if streams.input.Unreadable? {
      return Replied(GenericErrorResult(Some(streams.input.ioMessage)));
    }
    var input := DecryptVerifyInput(false, allowedKeyIds, decryptMetadataOnly, data.detachedSignature,
                                    streams.hasOutput && !decryptMetadataOnly);
    var pgpResult := svc.decryptVerify(input, cryptoInput);
    var piFactory := Factory(svc.sdkInt, data);
    var version := ApiVersion(data);

    match pgpResult {
      case DecryptVerifyPending(requiredInput, engineCryptoInput) =>
        reply := PendingReply(piFactory, requiredInput, engineCryptoInput);
      case DecryptVerifyFailure(keysDisallowed, message) =>
        if keysDisallowed {
          reply := Replied(InteractionRequired(piFactory.CreateSelectAllowedKeysPendingIntent(svc.callingPackage)));
        } else {
          reply := Replied(GenericErrorResult(Some(message)));
        }
      case DecryptVerifySuccess(sig, decryptionResult, metadata) =>
        reply := SuccessReplyImpl(version, piFactory, sig, decryptionResult, metadata);
    }
  }

  /**
   * The status rewrite for older clients, in place: revoked and expired
   * keys become invalid signatures below version 5, insecure signatures
   * below version 8. The no-signature status is left for the caller, which
   * drops the signature instead.
   */
  method DowngradeStatus(signatureResult: OpenPgpSignatureResult, version: int)
    modifies signatureResult
    ensures signatureResult.Value() == old(signatureResult.Value()).(status :=
              if old(signatureResult.result) == NoSignature then NoSignature
              else ReportedStatus(version, old(signatureResult.result)))
  {
    if version < 5 {
      if signatureResult.result == InvalidKeyRevoked || signatureResult.result == InvalidKeyExpired {
        signatureResult.SetResult(InvalidSignature);
      }
    }
    if version < 8 {
      if signatureResult.result == InvalidInsecure {
        signatureResult.SetResult(InvalidSignature);
      }
    }
  }

  /**
   * The success branch of decryptAndVerifyImpl: the token is chosen first,
   * then the engine's result object is downgraded in place for older
   * clients and the extras are attached one by one.
   */
  method SuccessReplyImpl(version: int, piFactory: Factory, sig: SignatureResult,
                          decryptionResult: Option<DecryptionResult>, metadata: Option<Metadata>)
    returns (reply: Reply)
    ensures reply == DecryptSuccessReply(version, piFactory, sig, decryptionResult, metadata)
  {
    var signatureResult := new OpenPgpSignatureResult(sig);
    var resultSignature: OpenPgpSignatureResult? := signatureResult;
    var resultIntent: Option<PendingIntent> := None;

    match signatureResult.result {
      case KeyMissing =>
        resultIntent := Some(piFactory.CreateImportFromKeyserverPendingIntent(signatureResult.keyId));
      case ValidConfirmed | ValidUnconfirmed | InvalidKeyRevoked | InvalidKeyExpired | InvalidInsecure =>
        resultIntent := Some(piFactory.CreateShowKeyPendingIntent(signatureResult.keyId));
      case NoSignature | InvalidSignature =>
    }
    assert resultIntent == ContextualToken(piFactory, sig);

    DowngradeStatus(signatureResult, version);

    if version < 8 {
      if signatureResult.result == NoSignature {
        resultSignature := null;
      }
      if decryptionResult.None? {
        return Thrown("NullPointerException");
      }
      if decryptionResult.value.status == NotEncrypted && signatureResult.result != NoSignature {
        signatureResult.SetSignatureOnly(true);
      }
    }
    assert KnowsExtra(version, DecryptionExtra) || decryptionResult.Some?;
    assert (if resultSignature == null then None else Some(resultSignature.Value()))
        == SignatureExtra(version, sig, decryptionResult);

    var resultDecryption: Option<DecryptionResult> := None;
    if version >= 8 {
      if decryptionResult.Some? {
        resultDecryption := decryptionResult;
      }
    }

    var resultMetadata: Option<Metadata> := None;
    if version >= 4 {
      if metadata.Some? {
        resultMetadata := metadata;
      }
    }

    var charset := if metadata.Some? then metadata.value.charset else None;
    var resultCharset: Option<string> := None;
    if charset.Some? {
      resultCharset := charset;
    }

    var signatureExtra := if resultSignature == null then None else Some(resultSignature.Value());
    reply := Replied(Success(DecryptPayload(signatureExtra, resultDecryption, resultMetadata, resultCharset),
                             resultIntent));
  }
}
