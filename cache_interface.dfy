/**
 * The cache driver contract: the TTL preset constants, the values a cache
 * stores and hands back, and the TTL argument every operation accepts.
 * The abstract methods `set/get/exists/delete/inc/dec/clear` themselves are
 * implemented by each adapter class (module MemoryAdapter, module FileAdapter).
 */
module CacheInterface {
  import opened Wrappers

  // TTL presets, in seconds.
  const ONE_MINUTE: int := 60
  const ONE_HOUR: int := 3600
  const ONE_DAY: int := 86400
  const ONE_WEEK: int := 604800
  const TWO_WEEKS: int := 1209600
  const ONE_MONTH: int := 2592000
  const NO_LIMIT: int := 0

  /** The presets are the multiples their trailing comments claim. */
  lemma PresetsAgree()
    ensures ONE_HOUR == 60 * ONE_MINUTE
    ensures ONE_DAY == 24 * ONE_HOUR
    ensures ONE_WEEK == 7 * ONE_DAY
    ensures TWO_WEEKS == 14 * ONE_DAY && TWO_WEEKS == 2 * ONE_WEEK
    ensures ONE_MONTH == 30 * ONE_DAY
    ensures NO_LIMIT == 0
  {
  }

  /**
   * A cached value. PHP caches any serialisable value; the model keeps the
   * three shapes the behaviour depends on: `null` (which `isset` treats as
   * absent), integers (which `inc`/`dec` add to), and every other value,
   * carried as an opaque serialised string.
   */
  datatype Value = Null | Int(n: int) | Blob(data: string)

  /**
   * A TTL argument as PHP passes it: `null` (the default of every `$ttl`
   * parameter) or an integer number of seconds.
   */
  datatype TtlArg = Unset | Secs(n: int)

  /** PHP's `(int)` cast of a TTL argument: `(int)null` is 0. */
  function IntOf(t: TtlArg): int
  {
    match t
    case Unset => 0
    case Secs(n) => n
  }

  /**
   * PHP's `$v + $step` for a stored value `v` and an integer step: `null`
   * counts as 0 and an integer adds. Every other value is treated as if the
   * addition raised, reported here as None; PHP 8 raises a TypeError for
   * arrays, objects and non-numeric strings, PHP 7 only for arrays, and
   * floats, booleans and numeric strings are juggled instead.
   */
  function Plus(v: Value, step: int): Option<int>
  {
    match v
    case Null => Some(step)
    case Int(n) => Some(n + step)
    case Blob(_) => None
  }

  /** Adding a step and then its negation gives back the integer first held. */
  lemma PlusCancels(v: Value, step: int)
    requires !v.Blob?
    ensures Plus(Int(Plus(v, step).value), -1 * step) == Some(if v.Int? then v.n else 0)
  {
  }
}
