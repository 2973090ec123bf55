/**
 * Expiry arithmetic on a decoded token, without checking its signature. `exp` is the NumericDate
 * of section 4.1.4 of RFC 7519 in seconds; the clock `now` is `Date.now()` in milliseconds.
 */
module TokenUtils {
  import opened Wrappers

  const MillisPerSecond := 1000
  const MillisPerMinute := 60000

  /** What jsonwebtoken's `decode` gives: it throws, returns null, or returns a payload. */
  datatype Decoded = DecodeThrew | DecodedNull | Payload(exp: Option<int>)

  /** The `!decoded || !decoded.exp` test: no payload, no `exp`, or the falsy `exp` 0. */
  predicate NoUsableExpiry(d: Decoded)
  {
    !d.Payload? || d.exp.None? || d.exp.value == 0
  }

  /** `isTokenExpired`. */
  function IsTokenExpired(d: Decoded, now: int): (expired: bool)
    ensures !expired <==> d.Payload? && d.exp.Some? && d.exp.value != 0 && now <= d.exp.value * MillisPerSecond
  {
    if NoUsableExpiry(d) then true else d.exp.value * MillisPerSecond < now
  }

  /** `getMinutesUntilExpiration`. */
  function MinutesUntilExpiration(d: Decoded, now: int): (m: nat)
    ensures IsTokenExpired(d, now) ==> m == 0
    ensures !IsTokenExpired(d, now) ==>
      m * MillisPerMinute <= d.exp.value * MillisPerSecond - now < (m + 1) * MillisPerMinute
  {
    if NoUsableExpiry(d) then 0
    else
      var diff := d.exp.value * MillisPerSecond - now;
      if diff <= 0 then 0 else diff / MillisPerMinute
  }

  /** Expired exactly from the millisecond after `exp`: a token whose expiry is now is still valid. */
  lemma ExpiryBoundary(d: Decoded, now: int)
    requires !NoUsableExpiry(d)
    ensures IsTokenExpired(d, now) <==> now > d.exp.value * 1000
    ensures !IsTokenExpired(d, d.exp.value * 1000) && IsTokenExpired(d, d.exp.value * 1000 + 1)
  {
  }

  /** Once expired, a token stays expired as the clock advances. */
  lemma ExpiredStaysExpired(d: Decoded, now: int, later: int)
    requires now <= later && IsTokenExpired(d, now)
    ensures IsTokenExpired(d, later)
  {
  }

  /** The result is the whole number of minutes left: floor of the remaining milliseconds over 60000. */
  lemma MinutesAreFloor(d: Decoded, now: int)
    requires !NoUsableExpiry(d) && d.exp.value * 1000 - now > 0
    ensures var diff := d.exp.value * 1000 - now;
            var m := MinutesUntilExpiration(d, now);
            m * 60000 <= diff < (m + 1) * 60000
  {
  }

  /** No minutes are left for an expired token. */
  lemma ExpiredHasNoMinutes(d: Decoded, now: int)
    requires IsTokenExpired(d, now)
    ensures MinutesUntilExpiration(d, now) == 0
  {
  }

  /** A positive number of minutes means the token is not expired, so the two never disagree. */
  lemma MinutesImplyValid(d: Decoded, now: int)
    requires MinutesUntilExpiration(d, now) > 0
    ensures !IsTokenExpired(d, now)
  {
  }

  /** The minutes left never grow as the clock advances. */
  lemma {:induction false} MinutesNonIncreasing(d: Decoded, now: int, later: int)
    requires now <= later
    ensures MinutesUntilExpiration(d, later) <= MinutesUntilExpiration(d, now)
  {
    if !NoUsableExpiry(d) {
      var a := d.exp.value * MillisPerSecond - now;
      var b := d.exp.value * MillisPerSecond - later;
      if b > 0 {
        DivMonotone(b, a, MillisPerMinute);
      }
    }
  }

  lemma MulOrder(a: int, b: int, k: int)
    requires k > 0 && a * k < b * k
    ensures a < b
  {
    assert a * k - b * k == (a - b) * k;
  }

  lemma DivMonotone(x: int, y: int, k: int)
    requires 0 <= x <= y && k > 0
    ensures x / k <= y / k
  {
    var p, q := x / k, y / k;
    assert p * k <= x && y < (q + 1) * k;
    MulOrder(p, q + 1, k);
  }
}
