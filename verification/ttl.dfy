/**
 * `parseTtl` (the effective TTL of an entry) and the expiry test both cache
 * variants apply when an entry is read or swept.
 */
module Ttl {
  import opened JsValues

  function Min(a: int, b: int): int
  {
    if a <= b then a else b
  }

  /**
   * `parseTtl(ttl)` with the configured ceiling `maxTtl`. A missing or falsy
   * TTL, a string that is not a number, and a negative TTL all give `maxTtl`;
   * otherwise the TTL is capped at `maxTtl`. `Math.min` of an object (or of an
   * array whose string form is not a number) is NaN, and so is the result.
   */
  function ParseTtl(ttl: Option<Value>, maxTtl: int): (r: Num)
    ensures ttl.None? || Falsy(ttl.value) ==> r == Int(maxTtl)
    ensures ttl.Some? && ttl.value.Number? && ttl.value.n < 0 ==> r == Int(maxTtl)
    ensures ttl.Some? && ttl.value.Number? && ttl.value.n > 0 ==> r == Int(Min(ttl.value.n, maxTtl))
    ensures ttl.Some? && ttl.value.Str? && JsNumber(ttl.value.s).NaN? ==> r == Int(maxTtl)
    ensures maxTtl >= 0 && r.Int? ==> 0 <= r.v <= maxTtl
    ensures r.NaN? <==> ttl.Some? && (ttl.value.Arr? || ttl.value.Obj?) && ToNumber(ttl.value).NaN?
  {
    if ttl.None? || Falsy(ttl.value) then Int(maxTtl)
    else
      var n := ToNumber(ttl.value);
      if ttl.value.Str? && n.NaN? then Int(maxTtl)
      else if Less(n, Int(0)) then Int(maxTtl)
      else if n.NaN? then NaN
      else Int(Min(n.v, maxTtl))
  }

  /**
   * `now - arriveAt > parseTtl(ttl)`: strictly older than the effective TTL.
   * A comparison with NaN is false, so such an entry never expires.
   */
  predicate IsExpired(now: int, arriveAt: int, ttl: Option<Value>, maxTtl: int)
    ensures IsExpired(now, arriveAt, ttl, maxTtl) ==> ParseTtl(ttl, maxTtl).Int?
    ensures maxTtl >= 0 && IsExpired(now, arriveAt, ttl, maxTtl) ==> arriveAt < now
    ensures maxTtl >= 0 && ParseTtl(ttl, maxTtl).Int? && now - arriveAt > maxTtl ==> IsExpired(now, arriveAt, ttl, maxTtl)
  {
    var e := ParseTtl(ttl, maxTtl);
    e.Int? && now - arriveAt > e.v
  }

  /** An entry is never expired at the instant it arrives, whatever its TTL. */
  lemma FreshEntryNotExpired(now: int, ttl: Option<Value>, maxTtl: int)
    requires maxTtl >= 0
    ensures !IsExpired(now, now, ttl, maxTtl)
  {
  }

  /**
   * With a positive numeric TTL no larger than the ceiling, an entry is live
   * for exactly `ttl` after it arrives and expired afterwards.
   */
  lemma ExpiresAfterTtl(now: int, arriveAt: int, ttl: int, maxTtl: int)
    requires 0 < ttl <= maxTtl
    ensures IsExpired(now, arriveAt, Some(Number(ttl)), maxTtl) <==> now - arriveAt > ttl
  {
  }

  /** Without a TTL an entry lives for the ceiling `maxTtl`. */
  lemma MissingTtlUsesCeiling(now: int, arriveAt: int, maxTtl: int)
    ensures IsExpired(now, arriveAt, None, maxTtl) <==> now - arriveAt > maxTtl
  {
  }

  /** An object TTL makes `parseTtl` NaN, so the entry never expires. */
  lemma ObjectTtlNeverExpires(now: int, arriveAt: int, props: map<string, Value>, maxTtl: int)
    ensures !IsExpired(now, arriveAt, Some(Obj(props)), maxTtl)
  {
  }
}
