/**
 * The process-wide STX price cache with its five-minute lifetime and the
 * fallback chain behind it: a fresh cached price, else the first price
 * source, else the second, else the last cached price, else 0.85.
 * The two sources' answers are parameters: `None` where the request fails or
 * the field is missing, empty or (for the first source) zero.
 */
module PriceCache {
  import opened Wrappers

  const TtlMs: int := 5 * 60 * 1000

  /** The price used when no source answers and nothing usable is cached. */
  const LastResortPrice: real := 0.85

  datatype CachedPrice = CachedPrice(stx: real, timestamp: int)

  /** Whether `entry` still answers at `now`: stored less than five minutes earlier. */
  predicate Fresh(entry: Option<CachedPrice>, now: int)
  {
    entry.Some? && now - entry.value.timestamp < TtlMs
  }

  /** The price returned and the cache afterwards, as the fallback chain decides them. */
  function PriceStep(entry: Option<CachedPrice>, now: int, primary: Option<real>, secondary: Option<real>)
    : (r: (real, Option<CachedPrice>))
    ensures r.1 == entry || r.1 == Some(CachedPrice(r.0, now))
    ensures r.1 != entry ==> !Fresh(entry, now)
    ensures || r.0 == LastResortPrice
            || (entry.Some? && r.0 == entry.value.stx)
            || (primary.Some? && r.0 == primary.value)
            || (secondary.Some? && r.0 == secondary.value)
    ensures r.0 == 0.0 ==> (secondary.Some? && secondary.value == 0.0) || Fresh(entry, now)
  {
    if Fresh(entry, now) then (entry.value.stx, entry)
    else if primary.Some? && primary.value != 0.0 then (primary.value, Some(CachedPrice(primary.value, now)))
    else if secondary.Some? then (secondary.value, Some(CachedPrice(secondary.value, now)))
    else if entry.Some? && entry.value.stx != 0.0 then (entry.value.stx, entry)
    else (LastResortPrice, entry)
  }

  class StxPriceCache {
    var entry: Option<CachedPrice>

    constructor()
      ensures entry.None?
    {
      entry := None;
    }

    /** Fetches the STX price at time `now`, refreshing the cache when a source answers. */
    method FetchStxPrice(now: int, primary: Option<real>, secondary: Option<real>) returns (price: real)
      modifies this
      ensures (price, entry) == PriceStep(old(entry), now, primary, secondary)
    {
      if entry.Some? && now - entry.value.timestamp < TtlMs {
        return entry.value.stx;
      }
      if primary.Some? && primary.value != 0.0 {
        entry := Some(CachedPrice(primary.value, now));
        return primary.value;
      }
      if secondary.Some? {
        entry := Some(CachedPrice(secondary.value, now));
        return secondary.value;
      }
      if entry.Some? && entry.value.stx != 0.0 {
        return entry.value.stx;
      }
      return LastResortPrice;
    }
  }

  /** A fresh cache answers alone: neither source is consulted and the cache is kept. */
  lemma FreshHitServesCache(entry: Option<CachedPrice>, now: int, primary: Option<real>, secondary: Option<real>)
    requires Fresh(entry, now)
    ensures PriceStep(entry, now, primary, secondary) == (entry.value.stx, entry)
  {
  }

  /** A price that a source gave at `now` is served, unchanged, for the next five minutes. */
  lemma FetchedPriceServedUntilExpiry(entry: Option<CachedPrice>, now: int, later: int,
                                      primary: Option<real>, secondary: Option<real>,
                                      primary': Option<real>, secondary': Option<real>)
    requires !Fresh(entry, now)
    requires (primary.Some? && primary.value != 0.0) || secondary.Some?
    requires now <= later < now + TtlMs
    ensures var (price, cache) := PriceStep(entry, now, primary, secondary);
            PriceStep(cache, later, primary', secondary').0 == price
  {
  }

  /** When no source answers the price is the stale cached one if non-zero, else 0.85: never zero. */
  lemma FallbackNeverZero(entry: Option<CachedPrice>, now: int)
    requires !Fresh(entry, now)
    ensures var (price, cache) := PriceStep(entry, now, None, None);
            && cache == entry
            && price != 0.0
            && (entry.Some? && entry.value.stx != 0.0 ==> price == entry.value.stx)
  {
  }
}
