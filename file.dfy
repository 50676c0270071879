/**
 * The file adapter: one file per key at `namespace/key`, written with the
 * current time as its modification time. TTLs are never written; an entry
 * is live while `mtime + ttl > now` at the moment it is read, and a read
 * that finds it missing or no longer live deletes it.
 *
 * The filesystem is the map `disk` from path to entry, and every operation
 * that consults the clock takes the current time `now` as an argument.
 */
module FileAdapter {
  import opened Wrappers
  import opened CacheInterface
  import opened CacheTrait

  /** A cache file: its unserialised contents and its modification time. */
  datatype Entry = Entry(value: Value, mtime: int)

  /** The path of a key: the namespace as directory, the raw key unsanitised. */
  function PathOf(c: Config, key: string): string
  {
    GetNamespace(c) + "/" + key
  }

  /** `is_readable($p) && filemtime($p) + $ttl > time()`. */
  predicate Live(disk: map<string, Entry>, p: string, ttl: int, now: int) {
    p in disk && disk[p].mtime + ttl > now
  }

  class File {
    const config: Config
    var disk: map<string, Entry>

    /** An adapter over an existing filesystem. */
    constructor (opts: Options, existing: map<string, Entry>)
      ensures config == WithDefaults(opts)
      ensures disk == existing
    {
      config := WithDefaults(opts);
      disk := existing;
    }

    function Path(key: string): string {
      PathOf(config, key)
    }

    /** Writes the value with the current time as mtime; the TTL is not used. */
    method Set(key: string, data: Value, ttl: TtlArg, now: int) returns (ok: bool)
      modifies this
      ensures ok
      ensures disk == old(disk)[Path(key) := Entry(data, now)]
    {
      disk := disk[Path(key) := Entry(data, now)];
      ok := true;
    }

    /** Removes the file if it is there; succeeds either way. */
    method Delete(key: string) returns (ok: bool)
      modifies this
      ensures ok
      ensures disk == old(disk) - {Path(key)}
      ensures Path(key) !in old(disk) ==> disk == old(disk)
    {
      var p := Path(key);
      if p in disk {
        disk := disk - {p};
      }
      ok := true;
    }

    /**
     * The stored value while the entry is live under the resolved TTL;
     * otherwise the default, and the entry is deleted.
     */
    method Get(key: string, default: Value, ttl: TtlArg, now: int) returns (r: Value)
      modifies this
      ensures Live(old(disk), Path(key), GetTtl(config, ttl), now) ==>
                r == old(disk)[Path(key)].value && disk == old(disk)
      ensures !Live(old(disk), Path(key), GetTtl(config, ttl), now) ==>
                r == default && disk == old(disk) - {Path(key)}
    {
      var t := GetTtl(config, ttl);
      var p := Path(key);
      if p in disk && disk[p].mtime + t > now {
        r := disk[p].value;
        return;
      }
      var _ := Delete(key);
      r := default;
    }

    /**
     * True for a live entry. An entry that is there but no longer live is
     * deleted; a missing one leaves the filesystem as it was.
     */
    method Exists(key: string, ttl: TtlArg, now: int) returns (b: bool)
      modifies this
      ensures b <==> Live(old(disk), Path(key), GetTtl(config, ttl), now)
      ensures b ==> disk == old(disk)
      ensures Path(key) in old(disk) && !b ==> disk == old(disk) - {Path(key)}
      ensures Path(key) !in old(disk) ==> disk == old(disk)
    {
      var t := GetTtl(config, ttl);
      var p := Path(key);
      if p in disk {
        if disk[p].mtime + t > now {
          return true;
        } else {
          var _ := Delete(key);
        }
      }
      b := false;
    }

    /**
     * Read, add, write: `get($key, null) + $step` under the default TTL (a
     * missing or expired entry reads as `null`, which adds as 0), then the
     * sum is written with a fresh mtime and returned. A non-integer value
     * is treated as if `+` raised before the write (see `Plus`): reported as None.
     */
    method Inc(key: string, step: int, now: int) returns (r: Option<int>)
      modifies this
      ensures r == Plus(if Live(old(disk), Path(key), GetTtl(config, Unset), now)
                        then old(disk)[Path(key)].value else Null, step)
      ensures r.Some? ==> disk == old(disk)[Path(key) := Entry(Int(r.value), now)]
      ensures r.None? ==> disk == old(disk)
    {
      var held := Get(key, Null, Unset, now);
      r := Plus(held, step);
      if r.Some? {
        var _ := Set(key, Int(r.value), Unset, now);
      }
    }

    /** `inc` with the step negated. */
    method Dec(key: string, step: int, now: int) returns (r: Option<int>)
      modifies this
      ensures r == Plus(if Live(old(disk), Path(key), GetTtl(config, Unset), now)
                        then old(disk)[Path(key)].value else Null, -1 * step)
      ensures r.Some? ==> disk == old(disk)[Path(key) := Entry(Int(r.value), now)]
      ensures r.None? ==> disk == old(disk)
    {
      r := Inc(key, -1 * step, now);
    }

    /** The paths of two key lists put together are the paths of each. */
    lemma PathsAppend(xs: seq<string>, ys: seq<string>)
      ensures (set j | j in xs + ys :: Path(j)) == (set j | j in xs :: Path(j)) + (set j | j in ys :: Path(j))
    {
    }

    /**
     * Deletes the file of every key of a possibly nested array, depth first
     * and in order, and always reports success.
     */
    method MultiDelete(keys: seq<KeyItem>) returns (ok: bool)
      modifies this
      ensures ok
      ensures disk == old(disk) - (set k | k in Flatten(keys) :: Path(k))
      decreases keys
    {
      for i := 0 to |keys|
        invariant disk == old(disk) - (set k | k in Flatten(keys[..i]) :: Path(k))
      {
        FlattenAppend(keys[..i], [keys[i]]);
        assert keys[..i + 1] == keys[..i] + [keys[i]];
        ghost var done := Flatten(keys[..i]);
        match keys[i]
        case Leaf(k) =>
          assert Flatten([keys[i]]) == [k];
          var _ := Delete(k);
          PathsAppend(done, [k]);
        case Group(sub) =>
          assert [keys[i]][1..] == [];
          assert Flatten([keys[i]]) == Flatten(sub);
          var _ := MultiDelete(sub);
          PathsAppend(done, Flatten(sub));
      }
      assert keys[..|keys|] == keys;
      ok := true;
    }

    /**
     * `exists($key)` is asked at time `checkedAt`; the following `set` or
     * `get($key)` happens at time `actedAt`. With no live entry the value
     * is produced, written and returned (`invoked`); otherwise `get` decides,
     * and an entry that expired between the two calls yields `null`.
     */
    method GetCallback(key: string, producer: Producer, ttl: TtlArg, checkedAt: int, actedAt: int)
      returns (r: Value, ghost invoked: bool)
      modifies this
      ensures invoked <==> !Live(old(disk), Path(key), GetTtl(config, Unset), checkedAt)
      ensures invoked ==> r == Produce(producer) && disk == old(disk)[Path(key) := Entry(r, actedAt)]
      ensures !invoked && Live(old(disk), Path(key), GetTtl(config, Unset), actedAt) ==>
                r == old(disk)[Path(key)].value && disk == old(disk)
      ensures !invoked && !Live(old(disk), Path(key), GetTtl(config, Unset), actedAt) ==>
                r == Null && disk == old(disk) - {Path(key)}
    {
      var present := Exists(key, Unset, checkedAt);
      if !present {
        invoked := true;
        r := Produce(producer);
        var _ := Set(key, r, ttl, actedAt);
      } else {
        invoked := false;
        r := Get(key, Null, Unset, actedAt);
      }
    }
  }

  // -----------------------------------------------------------------------
  // Properties of the path scheme.

  /**
   * Paths are not sanitised and carry no dash, so a slash in a raw key can
   * reach into another namespace's directory.
   */
  lemma PathsCrossNamespaces()
    ensures PathOf(Config("a", Unset), "b/c") == PathOf(Config("a/b", Unset), "c")
  {
  }

  /** Within one namespace, different raw keys have different paths. */
  lemma PathInjective(c: Config, k1: string, k2: string)
    requires PathOf(c, k1) == PathOf(c, k2)
    ensures k1 == k2
  {
    var n := |c.namespace| + 1;
    assert k1 == PathOf(c, k1)[n..];
    assert k2 == PathOf(c, k2)[n..];
  }

  /** The file path of a key is never its sanitised storage key. */
  lemma PathIsNotKey(c: Config, key: string)
    ensures PathOf(c, key) != Key(c, key)
  {
    KeyShape(c, key);
    assert PathOf(c, key)[|c.namespace|] == '/';
    assert Key(c, key)[|c.namespace|] == '-';
  }

  /** A path written at `storedAt` is live at `now` exactly while the TTL has not elapsed. */
  lemma LiveAfterWrite(disk: map<string, Entry>, p: string, v: Value, storedAt: int, ttl: int, now: int)
    ensures Live(disk[p := Entry(v, storedAt)], p, ttl, now) <==> now < storedAt + ttl
  {
  }

  // -----------------------------------------------------------------------
  // Call sequences on adapters over an arbitrary existing filesystem.

  /**
   * Lazy expiry: a value written at `storedAt` is read back before the
   * default TTL runs out; from then on the read returns the default and
   * leaves the file removed.
   */
  method ExpiryScenario(opts: Options, existing: map<string, Entry>, key: string, v: Value, d: Value,
                        storedAt: int, readAt: int)
    returns (r: Value, kept: bool)
    ensures readAt < storedAt + GetTtl(WithDefaults(opts), Unset) ==> r == v && kept
    ensures readAt >= storedAt + GetTtl(WithDefaults(opts), Unset) ==> r == d && !kept
  {
    var f := new File(opts, existing);
    var _ := f.Set(key, v, Unset, storedAt);
    r := f.Get(key, d, Unset, readAt);
    kept := f.Path(key) in f.disk;
  }

  /** With a configured TTL of 0 a written entry is already expired when read at once. */
  method ZeroTtlExpiresAtOnce(ns: Option<string>, existing: map<string, Entry>, key: string, v: Value, d: Value, now: int)
    returns (e: bool, r: Value)
    ensures !e && r == d
  {
    var f := new File(Options(ns, Some(Secs(0))), existing);
    var _ := f.Set(key, v, Unset, now);
    e := f.Exists(key, Unset, now);
    r := f.Get(key, d, Unset, now);
  }

  /** A positive TTL passed to the read wins over a configured TTL of 0. */
  method ExplicitTtlOverridesZero(ns: Option<string>, existing: map<string, Entry>, key: string, v: Value, d: Value,
                                  now: int, ttl: int)
    returns (e: bool, r: Value)
    requires ttl > 0
    ensures e && r == v
  {
    var f := new File(Options(ns, Some(Secs(0))), existing);
    var _ := f.Set(key, v, Unset, now);
    e := f.Exists(key, Secs(ttl), now);
    r := f.Get(key, d, Secs(ttl), now);
  }

  /**
   * From a missing key, `inc(k, s)` then `dec(k, s)` in the same second return
   * `s` then 0 while the default TTL is positive; otherwise the incremented
   * entry has already expired and `dec` starts again from 0.
   */
  method IncThenDec(opts: Options, existing: map<string, Entry>, key: string, step: int, now: int)
    returns (up: Option<int>, down: Option<int>)
    requires PathOf(WithDefaults(opts), key) !in existing
    ensures up == Some(step)
    ensures GetTtl(WithDefaults(opts), Unset) > 0 ==> down == Some(0)
    ensures GetTtl(WithDefaults(opts), Unset) <= 0 ==> down == Some(-step)
  {
    var f := new File(opts, existing);
    up := f.Inc(key, step, now);
    down := f.Dec(key, step, now);
  }

  /** Deleting twice succeeds twice and leaves no file. */
  method DeleteIsIdempotent(opts: Options, existing: map<string, Entry>, key: string)
    returns (first: bool, second: bool, kept: bool)
    ensures first && second && !kept
  {
    var f := new File(opts, existing);
    first := f.Delete(key);
    second := f.Delete(key);
    kept := f.Path(key) in f.disk;
  }

  /** `multiDelete([k1, [k2, k3]])` removes all three files. */
  method NestedDelete(opts: Options, existing: map<string, Entry>, k1: string, k2: string, k3: string)
    returns (kept1: bool, kept2: bool, kept3: bool)
    ensures !kept1 && !kept2 && !kept3
  {
    var f := new File(opts, existing);
    NestedExample(k1, k2, k3);
    var _ := f.MultiDelete([Leaf(k1), Group([Leaf(k2), Leaf(k3)])]);
    kept1 := f.Path(k1) in f.disk;
    kept2 := f.Path(k2) in f.disk;
    kept3 := f.Path(k3) in f.disk;
  }

  /**
   * Two `getCallback` calls within one second from a missing key: with a
   * positive default TTL the producer runs once and both calls agree.
   */
  method CallbackOnce(opts: Options, existing: map<string, Entry>, key: string, p: Producer, now: int)
    returns (r1: Value, r2: Value, ghost ran1: bool, ghost ran2: bool)
    requires PathOf(WithDefaults(opts), key) !in existing
    requires GetTtl(WithDefaults(opts), Unset) > 0
    ensures r1 == r2 == Produce(p)
    ensures ran1 && !ran2
  {
    var f := new File(opts, existing);
    r1, ran1 := f.GetCallback(key, p, Secs(0), now, now);
    r2, ran2 := f.GetCallback(key, p, Secs(0), now, now);
  }
}
