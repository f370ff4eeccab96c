/**
 * Choosing the signing key. Below API version 7 the key of the caller's
 * account (named by EXTRA_ACCOUNT_NAME, "default" when empty) is used;
 * from version 7 on the caller passes EXTRA_SIGN_KEY_ID, and without it
 * the user is asked to pick one. getSignKeyIdImpl echoes an id that is
 * already present (a call resumed after that interaction).
 */
module SignKey {
  import opened Wrappers
  import opened ApiTypes
  import opened PendingIntents
  import opened Results
  import opened Collaborators

  /** The account name, "default" when absent or empty (TextUtils.isEmpty). */
  function AccountName(data: Request): (name: string)
    ensures name != ""
    ensures data.accountName.Some? && data.accountName.value != "" ==> name == data.accountName.value
    ensures data.accountName.None? || data.accountName.value == "" ==> name == "default"
  {
    if data.accountName.None? || data.accountName.value == "" then "default" else data.accountName.value
  }

  /** The account exists and has a key. */
  predicate HasAccountKey(svc: Services, accName: string) {
    svc.accountKey(accName).Some? && svc.accountKey(accName).value != KeyNone
  }

  /** ApiPermissionHelper.getCreateAccountIntent: ask the user to create the account. */
  function CreateAccountIntent(data: Request, accName: string, svc: Services): Result {
    InteractionRequired(Factory(svc.sdkInt, data).CreateAccountCreationPendingIntent(svc.callingPackage, accName))
  }

  /**
   * getSignKeyIdImpl: SUCCESS echoing an EXTRA_SIGN_KEY_ID already present,
   * otherwise a select-sign-key token for the calling package and the
   * preferred user id.
   */
  function GetSignKeyIdImpl(data: Request, svc: Services): (r: Result)
    ensures data.signKeyId.Some? ==> r == Success(SignKeyIdPayload(data.signKeyId.value), None)
    ensures data.signKeyId.None? ==>
              r.InteractionRequired? && r.intent.data == data &&
              r.intent.activity == SelectSignKeyId(svc.callingPackage, data.userId)
  {
    if data.signKeyId.Some? then
      Success(SignKeyIdPayload(data.signKeyId.value), None)
    else
      InteractionRequired(Factory(svc.sdkInt, data).CreateSelectSignKeyIdPendingIntent(svc.callingPackage, data.userId))
  }

  datatype SignKeyChoice = SignKeyFound(id: KeyId) | SignKeyInteraction(result: Result)

  /**
   * getSignKeyMasterId. The found id may be the "none" key only when a
   * version-7-or-later caller passed none explicitly; every interaction
   * answer is USER_INTERACTION_REQUIRED.
   */
  function GetSignKeyMasterId(data: Request, svc: Services): (c: SignKeyChoice)
    ensures ApiVersion(data) < 7 ==>
              (c.SignKeyFound? <==> HasAccountKey(svc, AccountName(data))) &&
              (c.SignKeyFound? ==> c.id == svc.accountKey(AccountName(data)).value) &&
              (c.SignKeyInteraction? ==> c.result == CreateAccountIntent(data, AccountName(data), svc))
    ensures ApiVersion(data) >= 7 ==>
              (c.SignKeyFound? <==> data.signKeyId.Some?) &&
              (c.SignKeyFound? ==> c.id == data.signKeyId.value) &&
              (c.SignKeyInteraction? ==> c.result == GetSignKeyIdImpl(data, svc))
    ensures c.SignKeyInteraction? ==> c.result.InteractionRequired?
    ensures c == SignKeyFound(KeyNone) ==> ApiVersion(data) >= 7 && data.signKeyId == Some(KeyNone)
  {
    if ApiVersion(data) < 7 then
      var accName := AccountName(data);
      if !HasAccountKey(svc, accName) then
        SignKeyInteraction(CreateAccountIntent(data, accName, svc))
      else
        SignKeyFound(svc.accountKey(accName).value)
    else
      var signKeyId := data.signKeyId.GetOr(KeyNone);
      if signKeyId == KeyNone then
        var r := GetSignKeyIdImpl(data, svc);
        if r.InteractionRequired? then SignKeyInteraction(r) else SignKeyFound(r.payload.signKeyId)
      else
        SignKeyFound(signKeyId)
  }
}
