/** Arithmetic of leases: 64-bit saturation and wrap-around as the server does it,
    the seconds-granular time to live of the cache, and the instant up to which a
    lease really protects its holder. All times are milliseconds. */
module LeaseTime {
  const I64_MAX: int := 0x7FFF_FFFF_FFFF_FFFF
  const I64_MIN: int := -0x8000_0000_0000_0000

  /** A cached lease, as the server stores it. */
  datatype LeaseEntry = LeaseEntry(createdAt: int, timeout: int)

  /** `i64` saturation of an exact result. */
  function Saturate(x: int): int {
    if x > I64_MAX then I64_MAX else if x < I64_MIN then I64_MIN else x
  }

  /** `i64` addition in a release build: wraps around in two's complement. */
  function WrapAdd(x: int, y: int): int {
    (x + y - I64_MIN) % 0x1_0000_0000_0000_0000 + I64_MIN
  }

  /** Time left on a lease; both steps saturate. */
  function TimeLeft(entry: LeaseEntry, now: int): int {
    Saturate(Saturate(entry.createdAt + entry.timeout) - now)
  }

  /** Rust's `/`, which truncates toward zero, unlike Dafny's. */
  function TruncDiv(x: int, d: int): int
    requires d > 0
  {
    if x >= 0 then x / d else -((-x) / d)
  }

  /** Time to live of a cache entry in milliseconds: whole seconds, at least thirty. */
  function CacheLife(timeout: int): int {
    var seconds := TruncDiv(timeout, 1000);
    1000 * (if seconds > 30 then seconds else 30)
  }

  /** How long a granted lease keeps others out: until it runs out or the cache drops it. */
  function EffectiveLength(timeout: int): int {
    if timeout <= CacheLife(timeout) then timeout else CacheLife(timeout)
  }

  function EffectiveEnd(entry: LeaseEntry): int {
    entry.createdAt + EffectiveLength(entry.timeout)
  }

  /** The saturated test "time is left" is the exact one at every clock reading of an
      `i64` clock, but for a single corner: the clock at its maximum and an expiry past it. */
  lemma SaturationIsExact(entry: LeaseEntry, now: int)
    requires I64_MIN <= now <= I64_MAX
    ensures (TimeLeft(entry, now) > 0 <==> entry.createdAt + entry.timeout > now)
       <==> !(now == I64_MAX && entry.createdAt + entry.timeout > I64_MAX)
  {
  }

  /** The cache keeps the entry for the whole lease exactly for timeouts up to thirty
      seconds and for whole seconds; otherwise it drops it `timeout % 1000` ms early. */
  lemma CacheCoversLease(timeout: int)
    ensures CacheLife(timeout) >= timeout <==> timeout <= 30000 || timeout % 1000 == 0
    ensures EffectiveLength(timeout) ==
            timeout - (if timeout > 30000 then timeout % 1000 else 0)
    ensures timeout > 0 <==> EffectiveLength(timeout) > 0
  {
  }

  /** Before its effective end a lease is still cached and still has time left: the cache
      may not have dropped it and a reader is told to wait. */
  lemma ProtectedUntilEffectiveEnd(entry: LeaseEntry, now: int)
    requires I64_MIN <= now < I64_MAX && now < EffectiveEnd(entry)
    ensures TimeLeft(entry, now) > 0
    ensures now < entry.createdAt + CacheLife(entry.timeout)
  {
  }

  /** The expiry written on completion is the exact sum precisely when that sum fits. */
  lemma WrapIsExact(x: int, y: int)
    requires I64_MIN <= x <= I64_MAX && I64_MIN <= y <= I64_MAX
    ensures WrapAdd(x, y) == x + y <==> I64_MIN <= x + y <= I64_MAX
    ensures I64_MIN <= WrapAdd(x, y) <= I64_MAX
  {
  }
}
