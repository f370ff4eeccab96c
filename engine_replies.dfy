/**
 * The replies every engine-driving handler shares: a pending engine result
 * becomes a resumption token for the input it needs, and a failed read of
 * the input stream becomes an error.
 */
module EngineReplies {
  import opened Wrappers
  import opened ApiTypes
  import opened PendingIntents
  import opened Results
  import opened Collaborators

  /**
   * The engine needs input: USER_INTERACTION_REQUIRED with the token that
   * collects it, carrying the engine's required input and crypto input
   * unchanged. An input type requiredInputPi does not handle raises an
   * AssertionError, which no handler catches.
   */
  function PendingReply(f: Factory, requiredInput: RequiredInput, cryptoInput: CryptoInputParcel): (reply: Reply)
    ensures IsHandledInput(requiredInput.kind) <==> reply.Replied?
    ensures reply.Replied? ==>
              reply.result.InteractionRequired? && reply.result.intent.data == f.pendingIntentData &&
              reply.result.intent.activity ==
                (if requiredInput.kind == Passphrase then PassphraseDialog(requiredInput, cryptoInput)
                 else SecurityTokenOperation(requiredInput, cryptoInput))
  {
    if IsHandledInput(requiredInput.kind) then
      Replied(InteractionRequired(f.RequiredInputPi(requiredInput, cryptoInput)))
    else
      Thrown("AssertionError: Unhandled required input type!")
  }

  /**
   * inputStream.available() inside a handler that catches every Exception:
   * None when the stream can be read; otherwise the GENERIC_ERROR answer,
   * with the IOException's message, or, for a null stream, with the message
   * the runtime gives the NullPointerException (`nullPointerMessage`).
   */
  function InputFailure(input: InputStream, nullPointerMessage: Option<string>): (r: Option<Result>)
    ensures r.None? <==> input.Readable?
    ensures input.Unreadable? ==> r == Some(GenericErrorResult(Some(input.ioMessage)))
    ensures input.NoInput? ==> r == Some(GenericErrorResult(nullPointerMessage))
  {
    match input
    case Readable => None
    case Unreadable(message) => Some(GenericErrorResult(Some(message)))
    case NoInput => Some(GenericErrorResult(nullPointerMessage))
  }
}
