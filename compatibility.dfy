/**
 * Which parts of a decrypt/verify result a client of a given API version
 * understands: the version in which each signature status and each result
 * extra was introduced. A status the client does not know is reported as
 * the generic invalid-signature status; the no-signature status, unknown
 * before version 8, is reported by leaving the signature out.
 */
module Compatibility {
  import opened Wrappers
  import opened ApiTypes

  /**
   * The API version that introduced each signature status; None for the
   * statuses every client knows, which are passed on at any version.
   */
  function StatusIntroducedIn(s: SignatureStatus): Option<int> {
    match s
    case InvalidKeyRevoked | InvalidKeyExpired => Some(5)
    case InvalidInsecure | NoSignature => Some(8)
    case _ => None
  }

  predicate KnowsStatus(version: int, s: SignatureStatus) {
    StatusIntroducedIn(s).None? || StatusIntroducedIn(s).value <= version
  }

  /** The extras of a decrypt/verify result that are gated by version. */
  datatype ResultExtra = DecryptionExtra | MetadataExtra | CharsetExtra

  /** The API version that introduced each extra; None for one attached at any version. */
  function ExtraIntroducedIn(e: ResultExtra): Option<int> {
    match e
    case DecryptionExtra => Some(8)
    case MetadataExtra => Some(4)
    case CharsetExtra => None
  }

  predicate KnowsExtra(version: int, e: ResultExtra) {
    ExtraIntroducedIn(e).None? || ExtraIntroducedIn(e).value <= version
  }

  /** An optional extra as a client of `version` receives it. */
  function Gate<T>(version: int, e: ResultExtra, value: Option<T>): (r: Option<T>)
    ensures r.Some? <==> KnowsExtra(version, e) && value.Some?
    ensures r.Some? ==> r == value
  {
    if KnowsExtra(version, e) then value else None
  }

  /** The status a client of `version` is told. */
  function ReportedStatus(version: int, s: SignatureStatus): SignatureStatus {
    if KnowsStatus(version, s) then s else InvalidSignature
  }

  /**
   * The signature extra a client of `version` receives: none for a message
   * without signature when the client predates that status; otherwise the
   * engine's result with the status the client knows, marked signature-only
   * for pre-8 clients when the message was signed but not encrypted.
   */
  function SignatureExtra(version: int, sig: SignatureResult, decryption: Option<DecryptionResult>): (r: Option<SignatureResult>)
    requires KnowsExtra(version, DecryptionExtra) || decryption.Some?
    ensures r.None? <==> sig.status == NoSignature && !KnowsStatus(version, NoSignature)
    ensures r.Some? ==> r.value.keyId == sig.keyId && KnowsStatus(version, r.value.status)
    ensures r.Some? && KnowsStatus(version, sig.status) ==> r.value.status == sig.status
    ensures r.Some? ==>
              (r.value.signatureOnly <==>
                 sig.signatureOnly || (!KnowsExtra(version, DecryptionExtra) && decryption.value.status == NotEncrypted))
  {
    if !KnowsStatus(version, sig.status) && sig.status == NoSignature then None
    else
      var legacySignatureOnly := !KnowsExtra(version, DecryptionExtra) && decryption.value.status == NotEncrypted;
      Some(sig.(status := ReportedStatus(version, sig.status),
                signatureOnly := sig.signatureOnly || legacySignatureOnly))
  }

  /**
   * A client is never sent a status it does not
   * know: the status is its own when it knows it, and otherwise the generic
   * invalid-signature status, which every client knows.
   */
  lemma ReportedStatusIsKnown(version: int, sig: SignatureResult, decryption: Option<DecryptionResult>)
    requires KnowsExtra(version, DecryptionExtra) || decryption.Some?
    ensures SignatureExtra(version, sig, decryption).Some? ==>
              KnowsStatus(version, SignatureExtra(version, sig, decryption).value.status)
    ensures SignatureExtra(version, sig, decryption).Some? && KnowsStatus(version, sig.status) ==>
              SignatureExtra(version, sig, decryption).value.status == sig.status
    ensures SignatureExtra(version, sig, decryption).None? <==> version < 8 && sig.status == NoSignature
  {
  }

  /** From version 8 on the engine's signature result goes out unchanged. */
  lemma CurrentClientsSeeEngineResult(version: int, sig: SignatureResult, decryption: Option<DecryptionResult>)
    requires version >= 8
    ensures SignatureExtra(version, sig, decryption) == Some(sig)
  {
  }

  /**
   * The downgrades for older clients: revoked and expired keys are generic
   * invalid signatures below version 5, insecure signatures below version 8.
   */
  lemma LegacyDowngrades(version: int, s: SignatureStatus)
    ensures (s == InvalidKeyRevoked || s == InvalidKeyExpired) ==>
              ReportedStatus(version, s) == (if version < 5 then InvalidSignature else s)
    ensures s == InvalidInsecure ==> ReportedStatus(version, s) == (if version < 8 then InvalidSignature else s)
    ensures s in {InvalidSignature, ValidConfirmed, ValidUnconfirmed, KeyMissing} ==>
              ReportedStatus(version, s) == s
  {
  }
}
