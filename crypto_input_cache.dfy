/**
 * The crypto input a handler hands to the engine: the parcel cached for
 * this request by an earlier interaction, or a fresh one, with the
 * passphrase replaced when the request carries EXTRA_PASSPHRASE.
 */
module CryptoInputCache {
  import opened Wrappers
  import opened ApiTypes
  import opened Collaborators

  /** CryptoInputParcelCacheService.getCryptoInputParcel: the entry for this request, if any. */
  function CachedCryptoInput(data: Request, svc: Services): (c: Option<CryptoInputParcel>)
    ensures c.Some? <==> data.cacheId.Some? && data.cacheId.value in svc.cache
    ensures c.Some? ==> c.value == svc.cache[data.cacheId.value]
  {
    if data.cacheId.Some? && data.cacheId.value in svc.cache then Some(svc.cache[data.cacheId.value]) else None
  }

  /** A new parcel: `new CryptoInputParcel(date)` or, with no date, `new CryptoInputParcel()`. */
  function FreshCryptoInput(signatureTime: Option<int>): CryptoInputParcel {
    CryptoInputParcel(signatureTime, None, map[])
  }

  /**
   * The parcel the engine is given. An explicit passphrase always wins over
   * the cached one; without one the cached parcel is used unchanged; with
   * nothing cached a fresh parcel is used. The signature time and the
   * partial results come from the cached parcel whenever there is one.
   */
  function CryptoInputFor(data: Request, svc: Services, signatureTime: Option<int>): (c: CryptoInputParcel)
    ensures data.passphrase.Some? ==> c.passphrase == data.passphrase
    ensures data.passphrase.None? ==>
              c == (if CachedCryptoInput(data, svc).Some? then CachedCryptoInput(data, svc).value
                    else FreshCryptoInput(signatureTime))
    ensures CachedCryptoInput(data, svc).Some? ==>
              c.signatureTime == CachedCryptoInput(data, svc).value.signatureTime &&
              c.cryptoData == CachedCryptoInput(data, svc).value.cryptoData
    ensures CachedCryptoInput(data, svc).None? ==>
              c.signatureTime == signatureTime && c.cryptoData == map[]
  {
    var inputParcel := match CachedCryptoInput(data, svc)
                       case Some(cached) => cached
                       case None => FreshCryptoInput(signatureTime);
    if data.passphrase.Some? then inputParcel.(passphrase := data.passphrase) else inputParcel
  }
}
