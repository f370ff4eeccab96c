# OpenKeychain's OpenPGP remote service, modelled in Dafny

This project models the request-handling layer of OpenKeychain's OpenPGP
remote service (`OpenPgpService`) and its token factory
(`ApiPendingIntentFactory`). A client app sends a request: an action, an
API version and extras, with optional input and output streams. The
service answers in one of three ways:

- SUCCESS, with action-specific extras;
- ERROR, with an `OpenPgpError`;
- USER_INTERACTION_REQUIRED, with a token (a `PendingIntent`). The
  client runs the token and then sends the original request again. The
  token carries that request.

The model covers these parts:

- the checks in `checkRequirements`: a request is present, its API
  version is supported, and the caller has permission;
- the action switch;
- resolving recipient emails to key ids;
- the sign, encrypt, decrypt/verify, get-key, get-key-ids,
  get-sign-key-id and backup handlers;
- choosing the signing key for each API version;
- the crypto-input cache and the rule that an explicit passphrase wins;
- rewriting decrypt/verify results for older clients;
- building the tokens.

The crypto engine, the key database, the cache and the permission
helper are parameters, collected in `Collaborators.Services`. Each
engine outcome is a datatype: pending, success or failure.

Files and modules:

- `api_types.dfy` (`ApiTypes`): the request and its extras, key ids,
  the required-input and crypto-input parcels, signature and decryption
  results, and metadata.
- `pending_intents.dfy` (`PendingIntents`): the tokens and the factory.
- `results.dfy` (`Results`): the three answers, plus `Reply`. A
  `Reply` also covers "no answer" (`null`) and an exception that
  escapes the handler (`Thrown`).
- `collaborators.dfy` (`Collaborators`): the engine inputs and outcomes,
  and the abstract services.
- `email_key_resolution.dfy` (`EmailKeyResolution`):
  `returnKeyIdsFromEmails`. It has a specification function, and the
  loop itself is a method proved equal to that function.
- `crypto_input_cache.dfy`, `engine_replies.dfy`, `sign_key.dfy` and
  `sign_encrypt.dfy`: the shared steps of the handlers, and the sign and
  encrypt handlers.
- `compatibility.dfy` (`Compatibility`): which signature statuses and
  result extras each API version understands.
- `decrypt_verify.dfy` (`DecryptVerify`): `decryptAndVerifyImpl`. The
  engine's signature-result object is a class that is rewritten in place.
  This is proved equal to the compatibility table.
- `key_handlers.dfy` (`KeyHandlers`): get-key, get-key-ids and backup.
- `decimal_text.dfy` (`DecimalText`): Java's rendering of an int and of
  a list of ints, used in the version error message.
- `dispatcher.dfy` (`Dispatcher`): `checkRequirements`, the action
  switch, and `executeInternal`, which closes both descriptors on every
  path.

Behaviour of the code worth noting:

- The charset extra is attached at every API version. It is not gated
  like the metadata extra.
- The missing and duplicate emails are ordered lists, in input order. An
  email given twice appears twice.
- Some exceptions are not caught by the handler. `decryptAndVerifyImpl`
  catches only `IOException`, so a missing input stream is a
  `NullPointerException`. Below API version 8, a missing decryption
  result is also a `NullPointerException`. An unhandled required-input
  type is an `AssertionError` from `requiredInputPi`. A `switch` on a
  missing action is a `NullPointerException`. All of these are
  `Reply.Thrown`.
- On the exact path the code only logs an empty id list. It does not
  treat it as an internal error. The model proves that this branch
  cannot be reached.

## Model

| member | source | states |
|---|---|---|
| PendingIntents.Factory.Flags | OpenKeychain/src/main/java/org/sufficientlysecure/keychain/remote/ApiPendingIntentFactory.java:158-167 | every token built through createInternal is CANCEL_CURRENT and not ONE_SHOT; it is IMMUTABLE exactly when the SDK level is at least M |
| PendingIntents.Factory.CreateInternal | OpenKeychain/src/main/java/org/sufficientlysecure/keychain/remote/ApiPendingIntentFactory.java:154-167 | the token carries the given activity and the factory's original request data unchanged, with the createInternal flags |
| PendingIntents.Factory.RequiredInputPi | OpenKeychain/src/main/java/org/sufficientlysecure/keychain/remote/ApiPendingIntentFactory.java:52-69 | the three NFC input types give a security-token token and PASSPHRASE gives a passphrase token; both carry the required input and the crypto input unchanged, plus the original request; any other type is outside the precondition |
| PendingIntents.Factory.CreateSelectPublicKeyPendingIntent | OpenKeychain/src/main/java/org/sufficientlysecure/keychain/remote/ApiPendingIntentFactory.java:89-98 | the token carries exactly the given key ids, missing emails, duplicate emails and no-user-ids flag |
| PendingIntents.Factory.CreateRegisterPendingIntent | OpenKeychain/src/main/java/org/sufficientlysecure/keychain/remote/ApiPendingIntentFactory.java:170-187 | the register token carries the package name, the certificate and the original request; it is CANCEL_CURRENT and ONE_SHOT, and IMMUTABLE exactly from SDK M on |
| PendingIntents.TokensReplayOriginalRequest | OpenKeychain/src/main/java/org/sufficientlysecure/keychain/remote/ApiPendingIntentFactory.java:71-187 | every builder's token carries its own arguments (for example the exact master key id, or the backup key ids and secret flag) and the factory's original request; it is always CANCEL_CURRENT, IMMUTABLE iff SDK >= M, and ONE_SHOT iff it is the register token |
| ApiTypes.ApiVersion | OpenKeychain/src/main/java/org/sufficientlysecure/keychain/remote/OpenPgpService.java:760-760 | the client's API version is EXTRA_API_VERSION, and -1 when the request carries none |
| EngineReplies.PendingReply | OpenKeychain/src/main/java/org/sufficientlysecure/keychain/remote/OpenPgpService.java:444-452 | a pending engine outcome is USER_INTERACTION_REQUIRED with the required-input token exactly when requiredInputPi handles the input type; otherwise the AssertionError escapes |
| EngineReplies.InputFailure | OpenKeychain/src/main/java/org/sufficientlysecure/keychain/remote/OpenPgpService.java:214-215 | a missing input stream gives GENERIC_ERROR with the message the runtime gives the caught NullPointerException; a read failure gives GENERIC_ERROR with the IOException's message; a readable stream lets the handler go on |
| CryptoInputCache.CachedCryptoInput | OpenKeychain/src/main/java/org/sufficientlysecure/keychain/remote/OpenPgpService.java:217-217 | the cached parcel exists exactly when the request's cache entry exists, and then it is that entry |
| CryptoInputCache.CryptoInputFor | OpenKeychain/src/main/java/org/sufficientlysecure/keychain/remote/OpenPgpService.java:217-225 | an explicit EXTRA_PASSPHRASE always replaces the passphrase; without one, the cached parcel is used unchanged, or a fresh one when nothing is cached; the signature time and the partial crypto data come from the cache whenever there is a cached parcel |
| SignKey.AccountName | OpenKeychain/src/main/java/org/sufficientlysecure/keychain/remote/OpenPgpService.java:713-717 | the account name is the given one, or "default" when it is absent or empty; it is never empty |
| SignKey.GetSignKeyIdImpl | OpenKeychain/src/main/java/org/sufficientlysecure/keychain/remote/OpenPgpService.java:623-648 | an EXTRA_SIGN_KEY_ID already present is echoed as SUCCESS; otherwise a select-sign-key token for the calling package and the preferred user id, carrying the request |
| SignKey.GetSignKeyMasterId | OpenKeychain/src/main/java/org/sufficientlysecure/keychain/remote/OpenPgpService.java:710-737 | below version 7 the account key is used when the account has a key, and otherwise the create-account interaction is returned; from version 7 on the explicit sign key id is used, and otherwise the select-sign-key interaction; a resolved "none" key happens only from version 7 on, when it is passed explicitly |
| SignEncrypt.SigningKeysFor | OpenKeychain/src/main/java/org/sufficientlysecure/keychain/remote/OpenPgpService.java:185-205 | an interaction is returned unchanged; a resolved "none" key is the error "No signing key given"; a key without a signing subkey is the error "signing subkey not found!"; otherwise the master key and its first signing subkey |
| SignEncrypt.SignEncryptReply | OpenKeychain/src/main/java/org/sufficientlysecure/keychain/remote/OpenPgpService.java:231-261 | pending gives the required-input reply; success gives SUCCESS with no token, and the detached signature and digest name only when the engine produced one and the signature is detached; failure gives GENERIC_ERROR with the engine's last log message |
| SignEncrypt.PrepareSign | OpenKeychain/src/main/java/org/sufficientlysecure/keychain/remote/OpenPgpService.java:172-228 | the engine is reached exactly when a signing key and subkey are found and the input is readable; it then signs with that key, armored when cleartext or as requested (default on), detached unless cleartext, and writes output only for cleartext; an explicit passphrase reaches the engine |
| SignEncrypt.SignImpl | OpenKeychain/src/main/java/org/sufficientlysecure/keychain/remote/OpenPgpService.java:172-262 | signImpl answers with the early result, or with the engine outcome mapped by SignEncryptReply, returning a detached signature only when not cleartext |
| SignEncrypt.RecipientsFor | OpenKeychain/src/main/java/org/sufficientlysecure/keychain/remote/OpenPgpService.java:282-296 | EXTRA_KEY_IDS is used when present; otherwise the emails are resolved, and an unresolved result is returned as the interaction |
| SignEncrypt.CompressionFor | OpenKeychain/src/main/java/org/sufficientlysecure/keychain/remote/OpenPgpService.java:274-280 | the message is compressed with the default algorithm unless EXTRA_ENABLE_COMPRESSION is explicitly false |
| SignEncrypt.LegacySelfEncrypt | OpenKeychain/src/main/java/org/sufficientlysecure/keychain/remote/OpenPgpService.java:339-351 | below version 7 the message is also encrypted to the account key, or the account-creation interaction is returned when there is no account key; from version 7 on only to the signing key, if there is one |
| SignEncrypt.PrepareEncrypt | OpenKeychain/src/main/java/org/sufficientlysecure/keychain/remote/OpenPgpService.java:265-365 | the engine is reached exactly when the recipients resolve, the input is readable, a signing key and subkey are found (when signing) and, below version 7, the account has a key; otherwise the answer is that of the first step to stop, in the source's order: the recipient interaction, the input-stream error, the signing-key answer ("No signing key given", "signing subkey not found!" or its interaction), then the create-account interaction; when reached, the engine encrypts to the resolved recipients and fails on missing keys; armor, compression and file name are as requested; the signing key is used when signing; the additional recipient is the account key below version 7 and the signing key from version 7 on; an explicit passphrase reaches the engine |
| SignEncrypt.EncryptAndSignImpl | OpenKeychain/src/main/java/org/sufficientlysecure/keychain/remote/OpenPgpService.java:265-395 | encryptAndSignImpl answers with the early result, or with the engine outcome, where success carries no payload |
| EmailKeyResolution.FirstTwo | OpenKeychain/src/main/java/org/sufficientlysecure/keychain/remote/OpenPgpService.java:114-131 | an email contributes the first of its matches and, if there are more, exactly the second one as well |
| EmailKeyResolution.Resolve | OpenKeychain/src/main/java/org/sufficientlysecure/keychain/remote/OpenPgpService.java:99-137 | an absent or empty email list sets the no-user-ids flag and leaves every list empty; otherwise the pre-selected ids, the missing and the duplicate emails are those of the per-email lookup, in input order |
| EmailKeyResolution.MissingEmailsAreUnmatched | OpenKeychain/src/main/java/org/sufficientlysecure/keychain/remote/OpenPgpService.java:114-120 | an email is in the missing list exactly when it was given and has no usable key |
| EmailKeyResolution.DuplicateEmailsAreMultiplyMatched | OpenKeychain/src/main/java/org/sufficientlysecure/keychain/remote/OpenPgpService.java:122-131 | an email is in the duplicate list exactly when it was given and has two or more usable keys |
| EmailKeyResolution.PreselectionIsCompositional | OpenKeychain/src/main/java/org/sufficientlysecure/keychain/remote/OpenPgpService.java:108-137 | resolving a concatenation of email lists concatenates their pre-selected key ids |
| EmailKeyResolution.MissingIsCompositional | OpenKeychain/src/main/java/org/sufficientlysecure/keychain/remote/OpenPgpService.java:108-137 | resolving a concatenation of email lists concatenates their missing lists |
| EmailKeyResolution.DuplicatesAreCompositional | OpenKeychain/src/main/java/org/sufficientlysecure/keychain/remote/OpenPgpService.java:108-137 | resolving a concatenation of email lists concatenates their duplicate lists |
| EmailKeyResolution.SingleEmailResolution | OpenKeychain/src/main/java/org/sufficientlysecure/keychain/remote/OpenPgpService.java:114-131 | an email with no key is missing and contributes nothing; with one key it contributes that key; with more it contributes its first two keys and is a duplicate |
| EmailKeyResolution.ExactPathOneIdPerEmail | OpenKeychain/src/main/java/org/sufficientlysecure/keychain/remote/OpenPgpService.java:158-168 | when every email has exactly one key, there is one id per email, in input order |
| EmailKeyResolution.NothingMissingOrDuplicate | OpenKeychain/src/main/java/org/sufficientlysecure/keychain/remote/OpenPgpService.java:146-146 | when every email has exactly one key, nothing is missing or duplicate |
| EmailKeyResolution.ExactIffEveryEmailHasOneKey | OpenKeychain/src/main/java/org/sufficientlysecure/keychain/remote/OpenPgpService.java:146-168 | the resolution is exact if and only if a non-empty list of emails has exactly one key per email |
| EmailKeyResolution.KeyIdsFromEmails | OpenKeychain/src/main/java/org/sufficientlysecure/keychain/remote/OpenPgpService.java:99-170 | SUCCESS if and only if the list is non-empty and each email has one key; then the ids are one per email, in order, and never empty, so the "should never happen" branch cannot be reached; otherwise a select-public-key token with the pre-selection, the missing and duplicate emails, and the no-user-ids flag |
| EmailKeyResolution.MissingEmailForcesInteraction | OpenKeychain/src/main/java/org/sufficientlysecure/keychain/remote/OpenPgpService.java:117-157 | one email without a key forces USER_INTERACTION_REQUIRED and is listed as missing, whatever the other emails resolve to |
| EmailKeyResolution.DuplicateEmailForcesInteraction | OpenKeychain/src/main/java/org/sufficientlysecure/keychain/remote/OpenPgpService.java:122-157 | one email with several keys forces USER_INTERACTION_REQUIRED, is listed as duplicate, and pre-selects its first two keys at its own position |
| EmailKeyResolution.NoEmailsAsksUser | OpenKeychain/src/main/java/org/sufficientlysecure/keychain/remote/OpenPgpService.java:100-157 | an absent or empty email list gives USER_INTERACTION_REQUIRED with an empty pre-selection and the no-user-ids flag set |
| EmailKeyResolution.ResolutionStep | OpenKeychain/src/main/java/org/sufficientlysecure/keychain/remote/OpenPgpService.java:108-137 | one more email extends the id, missing and duplicate lists by that email's own contribution |
| EmailKeyResolution.ToArray | OpenKeychain/src/main/java/org/sufficientlysecure/keychain/remote/OpenPgpService.java:139-144 | the id list is copied into a new array element by element |
| EmailKeyResolution.ReturnKeyIdsFromEmails | OpenKeychain/src/main/java/org/sufficientlysecure/keychain/remote/OpenPgpService.java:99-170 | the loop's answer is KeyIdsFromEmails; it does exactly one lookup per email, and none when the list is absent or empty |
| Compatibility.Gate | OpenKeychain/src/main/java/org/sufficientlysecure/keychain/remote/OpenPgpService.java:521-538 | a gated extra is attached exactly when the client's version knows it and the value is present, and then it is unchanged |
| Compatibility.SignatureExtra | OpenKeychain/src/main/java/org/sufficientlysecure/keychain/remote/OpenPgpService.java:459-516 | a pre-8 client gets no signature exactly for NO_SIGNATURE; otherwise it gets the signer's key id with a status its version knows, the engine's status when it knows it, and the signature-only flag set when the engine set it or a pre-8 client reads an unencrypted message |
| Compatibility.ReportedStatusIsKnown | OpenKeychain/src/main/java/org/sufficientlysecure/keychain/remote/OpenPgpService.java:484-502 | a client is only sent statuses its version knows; a known status is passed on unchanged; the signature is left out exactly for a pre-8 client when there is no signature |
| Compatibility.CurrentClientsSeeEngineResult | OpenKeychain/src/main/java/org/sufficientlysecure/keychain/remote/OpenPgpService.java:484-502 | from version 8 on, the engine's signature result is passed on unchanged |
| Compatibility.LegacyDowngrades | OpenKeychain/src/main/java/org/sufficientlysecure/keychain/remote/OpenPgpService.java:484-497 | revoked and expired keys are INVALID_SIGNATURE below version 5; an insecure signature is INVALID_SIGNATURE below version 8; other statuses are unchanged |
| DecryptVerify.ContextualToken | OpenKeychain/src/main/java/org/sufficientlysecure/keychain/remote/OpenPgpService.java:461-482 | KEY_MISSING gives an import-from-keyserver token for the signer; the five statuses with a known key give a show-key token for it; NO_SIGNATURE and INVALID_SIGNATURE give no token |
| DecryptVerify.AllowedKeyIds | OpenKeychain/src/main/java/org/sufficientlysecure/keychain/remote/OpenPgpService.java:405-412 | the caller may use its allowed keys, and below version 7 also its accounts' keys |
| DecryptVerify.DecryptInput | OpenKeychain/src/main/java/org/sufficientlysecure/keychain/remote/OpenPgpService.java:400-439 | the engine gets no symmetric decryption, the allowed keys, the metadata-only flag and the detached signature; it writes output only when there is an output stream and not only metadata is wanted |
| DecryptVerify.KeysDisallowedAsksForAllowedKeys | OpenKeychain/src/main/java/org/sufficientlysecure/keychain/remote/OpenPgpService.java:544-551 | a keys-disallowed failure gives USER_INTERACTION_REQUIRED with a select-allowed-keys token for the calling package, never ERROR |
| DecryptVerify.EngineSuccessIsSuccess | OpenKeychain/src/main/java/org/sufficientlysecure/keychain/remote/OpenPgpService.java:454-541 | an engine success is SUCCESS unless a pre-8 client gets no decryption result; from version 8 on the client sees the engine's signature, decryption result, metadata and charset unchanged, with the contextual token |
| DecryptVerify.TokenFollowsEngineStatus | OpenKeychain/src/main/java/org/sufficientlysecure/keychain/remote/OpenPgpService.java:461-491 | the token is chosen before the downgrade: a version-4 client is told that a revoked key's signature is INVALID_SIGNATURE, yet it gets the show-key token for that key |
| DecryptVerify.MetadataOnlyWritesNothing | OpenKeychain/src/main/java/org/sufficientlysecure/keychain/remote/OpenPgpService.java:400-403 | a metadata-only request never lets the engine write plaintext |
| DecryptVerify.DecryptSuccessReply | OpenKeychain/src/main/java/org/sufficientlysecure/keychain/remote/OpenPgpService.java:454-541 | the success answer throws exactly for a pre-8 client without a decryption result; otherwise SUCCESS with the contextual token, the version's signature extra, the decryption result and metadata gated by version, and the metadata's charset at every version |
| DecryptVerify.DecryptAndVerify | OpenKeychain/src/main/java/org/sufficientlysecure/keychain/remote/OpenPgpService.java:397-567 | a missing input stream throws; a read failure is GENERIC_ERROR with its message; the engine's pending, success, keys-disallowed and other failure outcomes give the required-input token, the success answer, the select-allowed-keys token and GENERIC_ERROR with the last log message |
| DecryptVerify.DowngradeStatus | OpenKeychain/src/main/java/org/sufficientlysecure/keychain/remote/OpenPgpService.java:484-497 | the in-place rewrite leaves the status the client's version knows (and NO_SIGNATURE as it is), with key id and signature-only flag unchanged |
| DecryptVerify.SuccessReplyImpl | OpenKeychain/src/main/java/org/sufficientlysecure/keychain/remote/OpenPgpService.java:454-541 | the step-by-step success branch (token, in-place downgrade, nulled signature, signatureOnly fallback, gated extras, charset) equals the compatibility-table answer DecryptSuccessReply |
| DecryptVerify.DecryptAndVerifyImpl | OpenKeychain/src/main/java/org/sufficientlysecure/keychain/remote/OpenPgpService.java:397-567 | decryptAndVerifyImpl equals DecryptAndVerify: a missing input stream throws; a read failure is GENERIC_ERROR; otherwise the engine outcome is mapped to the pending, success, keys-disallowed or error answer |
| KeyHandlers.RequestedKeyId | OpenKeychain/src/main/java/org/sufficientlysecure/keychain/remote/OpenPgpService.java:572-572 | the requested master key id, 0 when absent |
| KeyHandlers.GetKeyImpl | OpenKeychain/src/main/java/org/sufficientlysecure/keychain/remote/OpenPgpService.java:570-620 | a key not in the database gives an import-from-keyserver interaction for that id; a known key gives SUCCESS with a show-key token exactly when writing it to the requested output does not fail; a failed write gives GENERIC_ERROR with the failure's message |
| KeyHandlers.GetKeyIdsImpl | OpenKeychain/src/main/java/org/sufficientlysecure/keychain/remote/OpenPgpService.java:650-665 | an EXTRA_KEY_IDS already present is echoed as SUCCESS; otherwise the user ids are resolved by returnKeyIdsFromEmails |
| KeyHandlers.BackupInputFor | OpenKeychain/src/main/java/org/sufficientlysecure/keychain/remote/OpenPgpService.java:669-670 | the backup gets the requested key ids, secret keys only when asked (default no), and the output stream when one is given |
| KeyHandlers.BackupImpl | OpenKeychain/src/main/java/org/sufficientlysecure/keychain/remote/OpenPgpService.java:667-707 | without a cached parcel, a backup token with the key ids and the secret flag; with one, the backup runs with the cached parcel and the output stream, and SUCCESS comes exactly when it succeeds, and otherwise GENERIC_ERROR with its last log message |
| KeyHandlers.BackupTokenReplaysSameBackup | OpenKeychain/src/main/java/org/sufficientlysecure/keychain/remote/OpenPgpService.java:673-686 | sending again the request that the backup token carries, with the cache id of the parcel the backup screen cached set on it, runs the backup of the same keys with the same secret flag |
| KeyHandlers.ChosenKeyIdsAreReturned | OpenKeychain/src/main/java/org/sufficientlysecure/keychain/remote/OpenPgpService.java:650-665 | sending again the select-public-key token's request, with the chosen ids added, gives SUCCESS with exactly those ids |
| DecimalText.NatToDecimalRoundTrip | OpenKeychain/src/main/java/org/sufficientlysecure/keychain/remote/OpenPgpService.java:764-764 | the decimal digits of a natural number read back as that number |
| DecimalText.IntToDecimalRoundTrip | OpenKeychain/src/main/java/org/sufficientlysecure/keychain/remote/OpenPgpService.java:764-764 | Java's decimal rendering of any int, minus sign included, parses back to that int |
| DecimalText.ListToString | OpenKeychain/src/main/java/org/sufficientlysecure/keychain/remote/OpenPgpService.java:765-765 | the list rendering is bracketed |
| Dispatcher.CheckRequirements | OpenKeychain/src/main/java/org/sufficientlysecure/keychain/remote/OpenPgpService.java:747-778 | a missing request is GENERIC_ERROR "params Bundle required!"; then a version outside 3..10 is INCOMPATIBLE_API_VERSIONS with the version message; only then is the permission check's answer used |
| Dispatcher.IncompatibleVersionMessage | OpenKeychain/src/main/java/org/sufficientlysecure/keychain/remote/OpenPgpService.java:762-765 | the message is the header, then the caller's version in decimal, which parses back to that version, then the supported versions as "[3, 4, 5, 6, 7, 8, 9, 10]" |
| Dispatcher.Route | OpenKeychain/src/main/java/org/sufficientlysecure/keychain/remote/OpenPgpService.java:837-877 | each action has its own handler, and no two actions share one except the deprecated ACTION_SIGN, which goes with ACTION_CLEARTEXT_SIGN to cleartext signing; ACTION_DETACHED_SIGN to detached signing; ACTION_ENCRYPT and ACTION_SIGN_AND_ENCRYPT to encryption without and with signing; ACTION_DECRYPT_VERIFY and ACTION_DECRYPT_METADATA to full and metadata-only decryption; GET_SIGN_KEY_ID, GET_KEY_IDS, GET_KEY and BACKUP to their handlers; an unknown action has none |
| Dispatcher.Handle | OpenKeychain/src/main/java/org/sufficientlysecure/keychain/remote/OpenPgpService.java:838-873 | each handler is called with its own flag (cleartext or detached signing, signing or not while encrypting, full or metadata-only decryption) and its answer returned; every handler answers (never null); only the stream handlers can throw; get-key and backup are given whether an output stream exists |
| Dispatcher.Execute | OpenKeychain/src/main/java/org/sufficientlysecure/keychain/remote/OpenPgpService.java:827-879 | a requirements answer is final; a missing action throws; the answer is null exactly for a permitted request with an unknown action; otherwise it is the routed handler's answer |
| Dispatcher.ExecuteInternalWithStreams | OpenKeychain/src/main/java/org/sufficientlysecure/keychain/remote/OpenPgpService.java:827-879 | the dispatcher's stepwise run, with decrypt/verify done in place, equals Execute |
| Dispatcher.UnsupportedVersionRejectedFirst | OpenKeychain/src/main/java/org/sufficientlysecure/keychain/remote/OpenPgpService.java:757-775 | an unsupported version is rejected with INCOMPATIBLE_API_VERSIONS whatever the action; the answer does not depend on the permission check |
| Dispatcher.MissingRequestRejected | OpenKeychain/src/main/java/org/sufficientlysecure/keychain/remote/OpenPgpService.java:749-755 | a missing request is GENERIC_ERROR before anything else is looked at |
| Dispatcher.PermissionAnswerIsFinal | OpenKeychain/src/main/java/org/sufficientlysecure/keychain/remote/OpenPgpService.java:771-775 | for a supported version, an answer from the permission check is returned as it is, for every action |
| Dispatcher.UnknownActionAnswersNothing | OpenKeychain/src/main/java/org/sufficientlysecure/keychain/remote/OpenPgpService.java:874-876 | a permitted request with an unknown action gets no answer (null), not ERROR |
| Dispatcher.SignIsCleartextSign | OpenKeychain/src/main/java/org/sufficientlysecure/keychain/remote/OpenPgpService.java:839-846 | a permitted ACTION_SIGN or ACTION_CLEARTEXT_SIGN request is served by cleartext signing |
| Dispatcher.SupportedVersionsListText | OpenKeychain/src/main/java/org/sufficientlysecure/keychain/remote/OpenPgpService.java:759-765 | the supported versions are rendered as "[3, 4, 5, 6, 7, 8, 9, 10]" |
| Dispatcher.SignAndEncryptToOneEmail | OpenKeychain/src/main/java/org/sufficientlysecure/keychain/remote/OpenPgpService.java:853-854 | a permitted version-9 sign-and-encrypt request to one email with one key, with a usable signing key and a readable input, encrypts to that key and to the signing key, and an engine success is SUCCESS |
| Dispatcher.StreamsOf | OpenKeychain/src/main/java/org/sufficientlysecure/keychain/remote/OpenPgpService.java:800-803 | a missing descriptor is a null stream; an input whose read fails is an unreadable stream carrying that IOException's message |
| Dispatcher.ExecuteInternal | OpenKeychain/src/main/java/org/sufficientlysecure/keychain/remote/OpenPgpService.java:795-824 | the answer is Execute over the descriptors' streams, and every descriptor given is closed afterwards, whatever the answer |

## Left out

- The crypto engine (`PgpSignEncryptOperation`, `PgpDecryptVerifyOperation`, `BackupOperation`), key encoding and armoring are abstract functions from the engine input to an outcome. The bytes they read and write are not modelled.
- `ContentResolver` queries and their SQL are an abstract lookup from an email to its usable master key ids, in query order. A null cursor is the empty list.
- `CryptoInputParcelCacheService` is an abstract map keyed by the request's cache id. `ApiPermissionHelper.isAllowed` is an abstract oracle. Account settings and the allowed-key tables are abstract.
- `ApiPermissionHelper.getCreateAccountIntent` is not part of this model. It is taken to answer USER_INTERACTION_REQUIRED with the account-creation token.
- `Constants.key.none` is not part of this model. It is taken to be 0.
- The handlers write the explicit passphrase into the cached `CryptoInputParcel` object itself. The model builds a new parcel value. The aliasing with the cache entry is not captured.
- The signature result is taken to be non-null on an engine success. `hasExtra` on an extra set to null is not told apart from a missing extra.
- The message of the NullPointerException that `available()` raises on a null input stream is whatever the runtime gives it; the model takes it as the abstract `Services.nullPointerMessage`.
- Stream contents, `inputStream.available()` and `InputData` are left out. A stream is missing, readable, or failing with a message. Failures when closing a stream are only logged by the source, so they are left out.
- The Android service lifecycle, the binder stub, `onBind` and the deprecation log for ACTION_SIGN are platform plumbing and are left out.
- `PendingIntent.getActivity`, `Context` and the activity classes are left out. A token is a datatype holding its activity, its extras, the re-attached request and its flags. `Build.VERSION.SDK_INT` is the factory's `sdkInt`.
- Log messages and resource-string lookup are left out. An engine failure carries its last log message as an abstract string.
- Key ids are unbounded integers. Java's 64-bit `long` never wraps in this code, because the ids are only compared and copied.
