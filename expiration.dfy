/**
 * The expiration policy of the storage tiers (`StorageExpiration`).
 *
 * Foundation measures time as `Double` seconds; this model uses whole seconds. `Date.distantPast`
 * and `Date.distantFuture` become sentinels that lie before and after every finite instant, and the
 * `TimeInterval` values `-infinity` and `+infinity` become explicit constructors.
 */
module Expiration {

  /** A point in time (Foundation's `Date`), in whole seconds. */
  datatype Instant = DistantPast | At(seconds: int) | DistantFuture

  /** A signed duration (Foundation's `TimeInterval`), in whole seconds. */
  datatype Interval = MinusInfinity | Finite(seconds: int) | PlusInfinity

  /** How long a stored item stays valid. */
  datatype StorageExpiration =
    | Never
    | Seconds(seconds: int)
    | Days(days: int)
    | Date(date: Instant)
    | Expired

  const SecondsPerDay: int := 60 * 60 * 24

  /** `Date.addingTimeInterval`, applied to a finite reference instant. */
  function AddingTimeInterval(reference: int, t: Interval): (r: Instant)
    ensures r.At? <==> t.Finite?
    ensures t.Finite? ==> r.seconds - reference == t.seconds
  {
    match t
    case MinusInfinity => DistantPast
    case Finite(s) => At(reference + s)
    case PlusInfinity => DistantFuture
  }

  /** `Date.timeIntervalSince(now)`: how far `d` lies after `now`. */
  function TimeIntervalSince(d: Instant, now: int): (r: Interval)
    ensures AddingTimeInterval(now, r) == d
  {
    match d
    case DistantPast => MinusInfinity
    case At(s) => Finite(s - now)
    case DistantFuture => PlusInfinity
  }

  /** True when a duration is zero or negative. */
  predicate NonPositive(t: Interval) {
    match t
    case MinusInfinity => true
    case Finite(s) => s <= 0
    case PlusInfinity => false
  }

  /** `Date.isPast(referenceDate:)`: the instant is not after the reference. */
  predicate IsPast(d: Instant, now: int)
    ensures IsPast(d, now) <==> (d.DistantPast? || (d.At? && d.seconds <= now))
  {
    NonPositive(TimeIntervalSince(d, now))
  }

  /** The instant at which an item stored at `date` under policy `e` expires. */
  function EstimatedExpirationSince(e: StorageExpiration, date: int): (r: Instant)
    ensures r == DistantFuture <==> e == Never || e == Date(DistantFuture)
    ensures r == DistantPast <==> e == Expired || e == Date(DistantPast)
    ensures e.Seconds? || e.Days? ==> r.At?
  {
    match e
    case Never => DistantFuture
    case Seconds(s) => At(date + s)
    case Days(n) => At(date + SecondsPerDay * n)
    case Date(ref) => ref
    case Expired => DistantPast
  }

  /** `estimatedExpirationSinceNow`, with the clock reading `now` passed in. */
  function EstimatedExpirationSinceNow(e: StorageExpiration, now: int): (r: Instant)
    ensures r == AddingTimeInterval(now, TimeInterval(e, now))
  {
    EstimatedExpirationSince(e, now)
  }

  /** The time left before an item under policy `e` expires, seen at `now`. */
  function TimeInterval(e: StorageExpiration, now: int): (r: Interval)
    ensures r == PlusInfinity <==> e == Never || e == Date(DistantFuture)
    ensures r == MinusInfinity <==> e == Expired || e == Date(DistantPast)
  {
    match e
    case Never => PlusInfinity
    case Seconds(s) => Finite(s)
    case Days(n) => Finite(SecondsPerDay * n)
    case Date(ref) => TimeIntervalSince(ref, now)
    case Expired => MinusInfinity
  }

  /** An item under policy `e` is already expired at `now`. */
  predicate IsExpired(e: StorageExpiration, now: int)
    ensures IsExpired(e, now) <==> IsPast(EstimatedExpirationSince(e, now), now)
  {
    NonPositive(TimeInterval(e, now))
  }

  /** Shifting the reference date shifts a relative expiry by the same amount and leaves the others alone. */
  lemma ExpirationShift(e: StorageExpiration, date: int, delta: int)
    ensures e.Seconds? || e.Days? ==>
      EstimatedExpirationSince(e, date).At? &&
      EstimatedExpirationSince(e, date + delta) == At(EstimatedExpirationSince(e, date).seconds + delta)
    ensures !(e.Seconds? || e.Days?) ==>
      EstimatedExpirationSince(e, date + delta) == EstimatedExpirationSince(e, date)
  {
  }

  /** Only a policy given as an absolute date depends on the clock when asked for the time left. */
  lemma TimeIntervalOfRelativePolicy(e: StorageExpiration, now1: int, now2: int)
    ensures !e.Date? ==> TimeInterval(e, now1) == TimeInterval(e, now2)
  {
  }

  /** `.days(n)` behaves exactly like `.seconds(86400 * n)`. */
  lemma DaysAreSeconds(n: int, date: int, now: int)
    ensures EstimatedExpirationSince(Days(n), date) == EstimatedExpirationSince(Seconds(86400 * n), date)
    ensures TimeInterval(Days(n), now) == TimeInterval(Seconds(86400 * n), now)
    ensures IsExpired(Days(n), now) <==> IsExpired(Seconds(86400 * n), now)
  {
  }

  /** Which policies count as expired. */
  lemma ExpiredPolicies(s: int, n: int, ref: int, now: int)
    ensures !IsExpired(Never, now) && IsExpired(Expired, now)
    ensures IsExpired(Seconds(s), now) <==> s <= 0
    ensures IsExpired(Days(n), now) <==> n <= 0
    ensures IsExpired(Date(At(ref)), now) <==> ref <= now
  {
  }
}
