/**
 * The service entry points: checkRequirements, the action switch of
 * executeInternalWithStreams and executeInternal, which wraps the caller's
 * file descriptors into streams and closes them on every path.
 */
module Dispatcher {
  import opened Wrappers
  import opened ApiTypes
  import opened Results
  import opened Collaborators
  import opened DecimalText
  import opened SignKey
  import opened SignEncrypt
  import opened DecryptVerify
  import opened KeyHandlers
  import opened EmailKeyResolution

  const VersionHeader := "Incompatible API versions!\nused API version: "
  const VersionsLabel := "\nsupported API versions: "
  const VersionTrailer := VersionsLabel + "[3, 4, 5, 6, 7, 8, 9, 10]"

  /**
   * The message of INCOMPATIBLE_API_VERSIONS for a caller of `version`: a
   * header, the caller's version in decimal, which reads back as that
   * version, and the supported versions as List.toString renders them.
   */
  function IncompatibleVersionMessage(version: int): (m: string)
    ensures |VersionHeader| + |VersionTrailer| < |m|
    ensures m[..|VersionHeader|] == VersionHeader && m[|m| - |VersionTrailer|..] == VersionTrailer
    ensures var text := m[|VersionHeader|..|m| - |VersionTrailer|];
            |text| >= 1 && (forall i :: (if text[0] == '-' then 1 else 0) <= i < |text| ==> IsDigit(text[i])) &&
            ParseDecimal(text) == version
  {
    var text := IntToDecimal(version);
    var trailer := VersionsLabel + ListToString(SupportedVersions);
    SupportedVersionsListText();
    assert trailer == VersionTrailer;
    IntToDecimalRoundTrip(version);
    Framed(VersionHeader, text, trailer);
    VersionHeader + text + trailer
  }

  /** The parts of a text framed by a header and a trailer can be cut back out. */
  lemma Framed(header: string, text: string, trailer: string)
    ensures var m := header + text + trailer;
            m[..|header|] == header && m[|header|..|m| - |trailer|] == text && m[|m| - |trailer|..] == trailer
  {
  }

  /**
   * checkRequirements: None when the request may go on. A missing request
   * and an unsupported version are errors decided before the permission
   * check; otherwise the permission check's answer, if any.
   */
  function CheckRequirements(data: Option<Request>, svc: Services): (r: Option<Result>)
    ensures data.None? ==> r == Some(GenericErrorResult(Some("params Bundle required!")))
    ensures data.Some? && ApiVersion(data.value) !in SupportedVersions ==>
              r == Some(Error(OpenPgpError(IncompatibleApiVersions, Some(IncompatibleVersionMessage(ApiVersion(data.value))))))
    ensures data.Some? && ApiVersion(data.value) in SupportedVersions ==> r == svc.permission(data.value)
  {
    if data.None? then
      Some(GenericErrorResult(Some("params Bundle required!")))
    else if ApiVersion(data.value) !in SupportedVersions then
      Some(Error(OpenPgpError(IncompatibleApiVersions, Some(IncompatibleVersionMessage(ApiVersion(data.value))))))
    else
      svc.permission(data.value)
  }

  /** The handler an action is served by. */
  datatype Handler =
    | SignHandler(cleartextSign: bool)
    | EncryptHandler(sign: bool)
    | DecryptHandler(decryptMetadataOnly: bool)
    | SignKeyIdHandler
    | KeyIdsHandler
    | KeyHandler
    | BackupHandler

  /**
   * The action switch. The deprecated ACTION_SIGN is served as
   * ACTION_CLEARTEXT_SIGN; an action the service does not know has no
   * handler.
   */
  function Route(action: Action): (h: Option<Handler>)
    ensures h.None? <==> action.OtherAction?
    ensures h == Some(SignHandler(true)) <==> action == ActionCleartextSign || action == ActionSign
    ensures h == Some(SignHandler(false)) <==> action == ActionDetachedSign
    ensures h == Some(EncryptHandler(false)) <==> action == ActionEncrypt
    ensures h == Some(EncryptHandler(true)) <==> action == ActionSignAndEncrypt
    ensures h == Some(DecryptHandler(false)) <==> action == ActionDecryptVerify
    ensures h == Some(DecryptHandler(true)) <==> action == ActionDecryptMetadata
    ensures h == Some(SignKeyIdHandler) <==> action == ActionGetSignKeyId
    ensures h == Some(KeyIdsHandler) <==> action == ActionGetKeyIds
    ensures h == Some(KeyHandler) <==> action == ActionGetKey
    ensures h == Some(BackupHandler) <==> action == ActionBackup
  {
    match action
    case ActionCleartextSign => Some(SignHandler(true))
    case ActionSign => Some(SignHandler(true))
    case ActionDetachedSign => Some(SignHandler(false))
    case ActionEncrypt => Some(EncryptHandler(false))
    case ActionSignAndEncrypt => Some(EncryptHandler(true))
    case ActionDecryptVerify => Some(DecryptHandler(false))
    case ActionDecryptMetadata => Some(DecryptHandler(true))
    case ActionGetSignKeyId => Some(SignKeyIdHandler)
    case ActionGetKeyIds => Some(KeyIdsHandler)
    case ActionGetKey => Some(KeyHandler)
    case ActionBackup => Some(BackupHandler)
    case OtherAction(_) => None
  }

  /** The answer of a handler. */
  function Handle(h: Handler, data: Request, streams: Streams, svc: Services): (reply: Reply)
    ensures !reply.NoReply?
    ensures reply.Thrown? ==> h.SignHandler? || h.EncryptHandler? || h.DecryptHandler?
    ensures h.SignHandler? ==> reply == SignImpl(data, streams, h.cleartextSign, svc)
    ensures h.EncryptHandler? ==> reply == EncryptAndSignImpl(data, streams, h.sign, svc)
    ensures h.DecryptHandler? ==> reply == DecryptAndVerify(data, streams, h.decryptMetadataOnly, svc)
    ensures h.SignKeyIdHandler? ==> reply == Replied(GetSignKeyIdImpl(data, svc))
    ensures h.KeyIdsHandler? ==> reply == Replied(GetKeyIdsImpl(data, svc))
    ensures h.KeyHandler? ==> reply == Replied(GetKeyImpl(data, streams.hasOutput, svc))
    ensures h.BackupHandler? ==> reply == Replied(BackupImpl(data, streams.hasOutput, svc))
  {
    match h
    case SignHandler(cleartextSign) => SignImpl(data, streams, cleartextSign, svc)
    case EncryptHandler(sign) => EncryptAndSignImpl(data, streams, sign, svc)
    case DecryptHandler(metadataOnly) => DecryptAndVerify(data, streams, metadataOnly, svc)
    case SignKeyIdHandler => Replied(GetSignKeyIdImpl(data, svc))
    case KeyIdsHandler => Replied(GetKeyIdsImpl(data, svc))
    case KeyHandler => Replied(GetKeyImpl(data, streams.hasOutput, svc))
    case BackupHandler => Replied(BackupImpl(data, streams.hasOutput, svc))
  }

  /**
   * executeInternalWithStreams: the requirements first, then the action's
   * handler. Switching on a missing action throws; an unknown action
   * answers nothing.
   */
  function Execute(data: Option<Request>, streams: Streams, svc: Services): (reply: Reply)
    ensures CheckRequirements(data, svc).Some? ==> reply == Replied(CheckRequirements(data, svc).value)
    ensures reply.NoReply? <==>
              CheckRequirements(data, svc).None? && data.value.action.Some? && Route(data.value.action.value).None?
    ensures CheckRequirements(data, svc).None? && data.value.action.None? ==> reply == Thrown("NullPointerException")
    ensures CheckRequirements(data, svc).None? && data.value.action.Some? && Route(data.value.action.value).Some? ==>
              reply == Handle(Route(data.value.action.value).value, data.value, streams, svc)
  {
    match CheckRequirements(data, svc)
    case Some(error) => Replied(error)
    case None =>
      match data.value.action
      case None => Thrown("NullPointerException")
      case Some(action) =>
        match Route(action)
        case None => NoReply
        case Some(h) => Handle(h, data.value, streams, svc)
  }

  /** executeInternalWithStreams, running the decrypt handler stepwise. */
  method ExecuteInternalWithStreams(data: Option<Request>, streams: Streams, svc: Services) returns (reply: Reply)
    ensures reply == Execute(data, streams, svc)
  {
    var errorResult := CheckRequirements(data, svc);
    if errorResult.Some? {
      return Replied(errorResult.value);
    }
    if data.value.action.None? {
      return Thrown("NullPointerException");
    }
    var handler := Route(data.value.action.value);
    match handler {
      case None =>
        reply := NoReply;
      case Some(DecryptHandler(metadataOnly)) =>
        reply := DecryptAndVerifyImpl(data.value, streams, metadataOnly, svc);
      case Some(h) =>
        reply := Handle(h, data.value, streams, svc);
    }
  }

  /**
   * A caller of an unsupported version is told so, whatever it asks and
   * whatever its permissions: the permission check is never consulted.
   */
  lemma UnsupportedVersionRejectedFirst(data: Request, streams: Streams, svc: Services,
                                        permission: Request -> Option<Result>)
    requires ApiVersion(data) !in SupportedVersions
    ensures Execute(Some(data), streams, svc)
              == Execute(Some(data), streams, svc.(permission := permission))
              == Replied(Error(OpenPgpError(IncompatibleApiVersions, Some(IncompatibleVersionMessage(ApiVersion(data))))))
  {
  }

  /** A request without parameters is an error before anything else is looked at. */
  lemma MissingRequestRejected(streams: Streams, svc: Services)
    ensures Execute(None, streams, svc) == Replied(GenericErrorResult(Some("params Bundle required!")))
  {
  }

  /** An answer of the permission check is returned as it is, for every action. */
  lemma PermissionAnswerIsFinal(data: Request, streams: Streams, svc: Services)
    requires ApiVersion(data) in SupportedVersions && svc.permission(data).Some?
    ensures Execute(Some(data), streams, svc) == Replied(svc.permission(data).value)
  {
  }

  /** A permitted request with an action the service does not know gets no answer. */
  lemma UnknownActionAnswersNothing(data: Request, streams: Streams, svc: Services, name: string)
    requires ApiVersion(data) in SupportedVersions && svc.permission(data).None?
    requires data.action == Some(OtherAction(name))
    ensures Execute(Some(data), streams, svc) == NoReply
  {
  }

  /** A permitted ACTION_SIGN request is served as cleartext signing, like ACTION_CLEARTEXT_SIGN. */
  lemma SignIsCleartextSign(data: Request, streams: Streams, svc: Services)
    requires data.action == Some(ActionSign) || data.action == Some(ActionCleartextSign)
    requires ApiVersion(data) in SupportedVersions && svc.permission(data).None?
    ensures Execute(Some(data), streams, svc) == SignImpl(data, streams, true, svc)
  {
  }

  /** The supported versions as List.toString renders them. */
  lemma SupportedVersionsListText()
    ensures ListToString(SupportedVersions) == "[3, 4, 5, 6, 7, 8, 9, 10]"
  {
    VersionsFrom3();
  }

  lemma JoinStep(x: int, rest: seq<int>)
    requires |rest| > 0
    ensures JoinDecimal([x] + rest) == IntToDecimal(x) + ", " + JoinDecimal(rest)
  {
    assert ([x] + rest)[1..] == rest;
  }

  /** The supported versions rendered from the last one back to the first. */
  lemma VersionsFrom10()
    ensures JoinDecimal([10]) == "10"
  {
    assert NatToDecimal(10) == NatToDecimal(1) + [DigitChar(0)];
  }

  lemma VersionsFrom9()
    ensures JoinDecimal([9, 10]) == "9, 10"
  {
    VersionsFrom10();
    JoinStep(9, [10]);
    assert [9] + [10] == [9, 10];
  }

  lemma VersionsFrom8()
    ensures JoinDecimal([8, 9, 10]) == "8, 9, 10"
  {
    VersionsFrom9();
    JoinStep(8, [9, 10]);
    assert [8] + [9, 10] == [8, 9, 10];
  }

  lemma VersionsFrom7()
    ensures JoinDecimal([7, 8, 9, 10]) == "7, 8, 9, 10"
  {
    VersionsFrom8();
    JoinStep(7, [8, 9, 10]);
    assert [7] + [8, 9, 10] == [7, 8, 9, 10];
  }

  lemma VersionsFrom6()
    ensures JoinDecimal([6, 7, 8, 9, 10]) == "6, 7, 8, 9, 10"
  {
    VersionsFrom7();
    JoinStep(6, [7, 8, 9, 10]);
    assert [6] + [7, 8, 9, 10] == [6, 7, 8, 9, 10];
  }

  lemma VersionsFrom5()
    ensures JoinDecimal([5, 6, 7, 8, 9, 10]) == "5, 6, 7, 8, 9, 10"
  {
    VersionsFrom6();
    JoinStep(5, [6, 7, 8, 9, 10]);
    assert [5] + [6, 7, 8, 9, 10] == [5, 6, 7, 8, 9, 10];
  }

  lemma VersionsFrom4()
    ensures JoinDecimal([4, 5, 6, 7, 8, 9, 10]) == "4, 5, 6, 7, 8, 9, 10"
  {
    VersionsFrom5();
    JoinStep(4, [5, 6, 7, 8, 9, 10]);
    assert [4] + [5, 6, 7, 8, 9, 10] == [4, 5, 6, 7, 8, 9, 10];
  }

  lemma VersionsFrom3()
    ensures JoinDecimal([3, 4, 5, 6, 7, 8, 9, 10]) == "3, 4, 5, 6, 7, 8, 9, 10"
  {
    VersionsFrom4();
    JoinStep(3, [4, 5, 6, 7, 8, 9, 10]);
    assert [3] + [4, 5, 6, 7, 8, 9, 10] == [3, 4, 5, 6, 7, 8, 9, 10];
  }

  /**
   * A permitted version-9 SIGN_AND_ENCRYPT request for a single email with
   * exactly one key, with a signing key that has a signing subkey and a
   * readable input, reaches the engine with that email's key as recipient
   * and the signing key as additional recipient; an engine success is
   * SUCCESS without a payload.
   */
  lemma SignAndEncryptToOneEmail(data: Request, streams: Streams, svc: Services, email: string,
                                 key: KeyId, signKey: KeyId)
    requires data.action == Some(ActionSignAndEncrypt) && data.apiVersion == Some(9)
    requires data.keyIds.None? && data.userIds == Some([email]) && svc.keysForEmail(email) == [key]
    requires data.signKeyId == Some(signKey) && signKey != KeyNone && svc.secretSignSubKey(signKey).Some?
    requires svc.permission(data).None? && streams.input == Readable
    requires var p := PrepareEncrypt(data, streams, true, svc);
             p.Ready? ==> svc.signEncrypt(p.input, p.cryptoInput).SignEncryptSuccess?
    ensures var p := PrepareEncrypt(data, streams, true, svc);
            p.Ready? && p.input.encryption.value.encryptionMasterKeyIds == [key] &&
            p.input.additionalEncryptId == Some(signKey) &&
            p.input.signatureMasterKeyId == Some(signKey)
    ensures Execute(Some(data), streams, svc) == Replied(Success(NoPayload, None))
  {
    ExactIffEveryEmailHasOneKey(data.userIds, svc.keysForEmail);
    assert EveryEmailHasOneKey([email], svc.keysForEmail);
  }

  /**
   * A file descriptor handed over by the caller: the read failure its
   * stream raises, if any, and whether it has been closed.
   */
  class ParcelFileDescriptor {
    const readFailure: Option<string>
    var closed: bool

    constructor (readFailure: Option<string>)
      ensures this.readFailure == readFailure && !closed
    {
      this.readFailure := readFailure;
      closed := false;
    }

    method Close()
      modifies this
      ensures closed
    {
      closed := true;
    }
  }

  /** The streams over the caller's descriptors; a missing descriptor is a null stream. */
  function StreamsOf(input: ParcelFileDescriptor?, output: ParcelFileDescriptor?): (s: Streams)
    ensures s.hasOutput <==> output != null
    ensures s.input.NoInput? <==> input == null
    ensures s.input.Unreadable? <==> input != null && input.readFailure.Some?
    ensures s.input.Unreadable? ==> s.input.ioMessage == input.readFailure.value
  {
    var inputStream := if input == null then NoInput
                       else if input.readFailure.Some? then Unreadable(input.readFailure.value)
                       else Readable;
    Streams(inputStream, output != null)
  }

  /**
   * executeInternal: the answer of executeInternalWithStreams over the
   * descriptors' streams; both descriptors end up closed whatever the
   * answer, and nothing else is touched.
   */
  method ExecuteInternal(data: Option<Request>, input: ParcelFileDescriptor?, output: ParcelFileDescriptor?,
                         svc: Services) returns (reply: Reply)
    modifies input, output
    ensures reply == Execute(data, StreamsOf(input, output), svc)
    ensures input != null ==> input.closed
    ensures output != null ==> output.closed
  {
    var streams := StreamsOf(input, output);
    reply := ExecuteInternalWithStreams(data, streams, svc);
    if input != null {
      input.Close();
    }
    if output != null {
      output.Close();
    }
  }
}
