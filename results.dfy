/**
 * What the service answers: a result Intent with RESULT_CODE SUCCESS,
 * USER_INTERACTION_REQUIRED or ERROR and the extras that go with it.
 */
module Results {
  import opened Wrappers
  import opened ApiTypes
  import opened PendingIntents

  /** OpenPgpError's codes used by the service. */
  datatype ErrorCode = GenericError | IncompatibleApiVersions

  /** An OpenPgpError; `message` is None where Java's message is null. */
  datatype OpenPgpError = OpenPgpError(code: ErrorCode, message: Option<string>)

  /** The action-specific extras of a SUCCESS result. */
  datatype Payload =
    | NoPayload
    | KeyIdsPayload(keyIds: seq<KeyId>)                       // RESULT_KEY_IDS
    | SignKeyIdPayload(signKeyId: KeyId)                      // EXTRA_SIGN_KEY_ID
    | DetachedSignaturePayload(detachedSignature: Bytes, micAlg: string)
    | DecryptPayload(signature: Option<SignatureResult>,      // RESULT_SIGNATURE
                     decryption: Option<DecryptionResult>,    // RESULT_DECRYPTION
                     metadata: Option<Metadata>,              // RESULT_METADATA
                     charset: Option<string>)                 // RESULT_CHARSET

  datatype Result =
    | Success(payload: Payload, resultIntent: Option<PendingIntent>)
    | InteractionRequired(intent: PendingIntent)
    | Error(error: OpenPgpError)

  /**
   * What a call into the service produces: a result Intent, null (an
   * unknown action), or a Java exception that no handler catches.
   */
  datatype Reply = Replied(result: Result) | NoReply | Thrown(reason: string)

  function GenericErrorResult(message: Option<string>): Result {
    Error(OpenPgpError(GenericError, message))
  }
}
