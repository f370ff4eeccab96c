/**
 * The key handlers: getKeyImpl (look a key up and optionally write it out),
 * getKeyIdsImpl (echo the chosen key ids or resolve them from user ids) and
 * backupImpl (back keys up once the user has supplied the backup code).
 */
module KeyHandlers {
  import opened Wrappers
  import opened ApiTypes
  import opened PendingIntents
  import opened Results
  import opened Collaborators
  import opened CryptoInputCache
  import opened EmailKeyResolution

  /** The master key id asked for; 0 when the request names none. */
  function RequestedKeyId(data: Request): (id: KeyId)
    ensures data.keyId.Some? ==> id == data.keyId.value
    ensures data.keyId.None? ==> id == 0
  {
    data.keyId.GetOr(0)
  }

  /**
   * getKeyImpl: a key that is not in the database is offered for import
   * from a key server; a known key is answered with SUCCESS and a token to
   * show it, unless writing it to the requested output fails.
   */
  function GetKeyImpl(data: Request, hasOutput: bool, svc: Services): (r: Result)
    ensures var id := RequestedKeyId(data);
            var f := Factory(svc.sdkInt, data);
            && (!svc.hasPublicKeyRing(id) <==> r == InteractionRequired(f.CreateImportFromKeyserverPendingIntent(id)))
            && (r.Error? <==> svc.hasPublicKeyRing(id) && hasOutput && svc.keyEncodingFault.Some?)
            && (r.Error? ==> r == GenericErrorResult(svc.keyEncodingFault))
            && (r.Success? <==> svc.hasPublicKeyRing(id) && !(hasOutput && svc.keyEncodingFault.Some?))
            && (r.Success? ==> r == Success(NoPayload, Some(f.CreateShowKeyPendingIntent(id))))
  {
    var masterKeyId := RequestedKeyId(data);
    var piFactory := Factory(svc.sdkInt, data);
    if !svc.hasPublicKeyRing(masterKeyId) then
      InteractionRequired(piFactory.CreateImportFromKeyserverPendingIntent(masterKeyId))
    else if hasOutput && svc.keyEncodingFault.Some? then
      GenericErrorResult(svc.keyEncodingFault)
    else
      Success(NoPayload, Some(piFactory.CreateShowKeyPendingIntent(masterKeyId)))
  }

  /**
   * getKeyIdsImpl: after the user has chosen keys the ids in the request
   * are returned as they are; before that they are resolved from the
   * request's user ids.
   */
  function GetKeyIdsImpl(data: Request, svc: Services): (r: Result)
    ensures data.keyIds.Some? ==> r == Success(KeyIdsPayload(data.keyIds.value), None)
    ensures data.keyIds.None? ==> r == KeyIdsFromEmails(Factory(svc.sdkInt, data), data.userIds, svc.keysForEmail)
  {
    if data.keyIds.Some? then Success(KeyIdsPayload(data.keyIds.value), None)
    else KeyIdsFromEmails(Factory(svc.sdkInt, data), data.userIds, svc.keysForEmail)
  }

  /** The parameters handed to the backup operation; secret keys only when asked. */
  function BackupInputFor(data: Request, hasOutput: bool): (input: BackupInput)
    ensures input.masterKeyIds == data.keyIds
    ensures input.backupSecret <==> data.backupSecret == Some(true)
    ensures input.writesOutput == hasOutput
  {
    BackupInput(data.keyIds, data.backupSecret.GetOr(false), hasOutput)
  }

  /**
   * backupImpl: without a cached parcel (the backup code) the user is sent
   * to the backup screen; with one the backup runs with the cached parcel.
   */
  function BackupImpl(data: Request, hasOutput: bool, svc: Services): (r: Result)
    ensures var cached := CachedCryptoInput(data, svc);
            && (cached.None? <==> r.InteractionRequired?)
            && (cached.None? ==>
                  r.intent == Factory(svc.sdkInt, data).CreateBackupPendingIntent(data.keyIds, BackupInputFor(data, hasOutput).backupSecret))
            && (cached.Some? ==>
                  (r.Success? <==> svc.backup(BackupInputFor(data, hasOutput), cached.value).BackupSuccess?) &&
                  (r.Success? ==> r == Success(NoPayload, None)) &&
                  (r.Error? ==> r == GenericErrorResult(Some(svc.backup(BackupInputFor(data, hasOutput), cached.value).lastLogMessage))))
  {
    var input := BackupInputFor(data, hasOutput);
    var piFactory := Factory(svc.sdkInt, data);
    match CachedCryptoInput(data, svc)
    case None => InteractionRequired(piFactory.CreateBackupPendingIntent(input.masterKeyIds, input.backupSecret))
    case Some(inputParcel) =>
      match svc.backup(input, inputParcel)
      case BackupSuccess => Success(NoPayload, None)
      case BackupFailure(message) => GenericErrorResult(Some(message))
  }

  /**
   * Repeating the request that the backup token carries, with the cache id
   * under which the backup screen has cached a parcel set on it, runs the
   * backup of the same keys with the same secret flag.
   */
  lemma BackupTokenReplaysSameBackup(data: Request, hasOutput: bool, svc: Services, cacheId: nat, parcel: CryptoInputParcel)
    requires BackupImpl(data, hasOutput, svc).InteractionRequired?
    ensures var token := BackupImpl(data, hasOutput, svc).intent;
            var svc' := svc.(cache := svc.cache[cacheId := parcel]);
            BackupImpl(token.data.(cacheId := Some(cacheId)), hasOutput, svc') ==
              match svc.backup(BackupInput(token.activity.masterKeyIds, token.activity.backupSecret, hasOutput), parcel)
              case BackupSuccess => Success(NoPayload, None)
              case BackupFailure(message) => GenericErrorResult(Some(message))
  {
  }

  /**
   * Repeating the request that the select-keys token carries, with the
   * key ids the user chose added, succeeds with exactly those ids.
   */
  lemma ChosenKeyIdsAreReturned(data: Request, svc: Services, chosen: seq<KeyId>)
    requires GetKeyIdsImpl(data, svc).InteractionRequired?
    ensures var token := GetKeyIdsImpl(data, svc).intent;
            GetKeyIdsImpl(token.data.(keyIds := Some(chosen)), svc) == Success(KeyIdsPayload(chosen), None)
  {
  }
}
