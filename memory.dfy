/**
 * The in-memory adapter: a per-instance associative array from storage key
 * to value. TTLs are accepted and ignored, and presence is PHP's `isset`,
 * under which a stored `null` is indistinguishable from a missing key.
 */
module MemoryAdapter {
  import opened Wrappers
  import opened CacheInterface
  import opened CacheTrait

  /** `isset($cache[$sk])`: the key is there and does not hold `null`. */
  predicate IsSet(cache: map<string, Value>, sk: string) {
    sk in cache && cache[sk] != Null
  }

  /** `isset($cache[$sk]) ? $cache[$sk] : $default`. */
  function Lookup(cache: map<string, Value>, sk: string, default: Value): Value
  {
    if IsSet(cache, sk) then cache[sk] else default
  }

  class Memory {
    const config: Config
    var cache: map<string, Value>

    constructor (opts: Options)
      ensures config == WithDefaults(opts)
      ensures cache == map[]
    {
      config := WithDefaults(opts);
      cache := map[];
    }

    /** The sanitised, namespaced key every operation of this adapter uses. */
    function StorageKey(key: string): string {
      Key(config, key)
    }

    /** Stores `data` under the key, whatever the TTL; returns nothing. */
    method Set(key: string, data: Value, ttl: TtlArg)
      modifies this
      ensures cache == old(cache)[StorageKey(key) := data]
    {
      cache := cache[StorageKey(key) := data];
    }

    /** The stored value when it is set, otherwise `default`; the TTL is ignored. */
    method Get(key: string, default: Value, ttl: TtlArg) returns (r: Value)
      ensures IsSet(cache, StorageKey(key)) ==> r == cache[StorageKey(key)]
      ensures !IsSet(cache, StorageKey(key)) ==> r == default
    {
      r := Lookup(cache, StorageKey(key), default);
    }

    /** Whether the key holds a value other than `null`; the TTL is ignored. */
    method Exists(key: string, ttl: TtlArg) returns (b: bool)
      ensures b <==> IsSet(cache, StorageKey(key))
    {
      b := IsSet(cache, StorageKey(key));
    }

    /** Removes the key if it is there; succeeds either way. */
    method Delete(key: string) returns (ok: bool)
      modifies this
      ensures ok
      ensures cache == old(cache) - {StorageKey(key)}
    {
      cache := cache - {StorageKey(key)};
      ok := true;
    }

    /**
     * Adds `step` to the value held (an unset key counts as 0), stores the
     * sum and returns it. A non-integer value is treated as if PHP's `+`
     * raised before anything is stored (see `Plus`): reported as None.
     */
    method Inc(key: string, step: int) returns (r: Option<int>)
      modifies this
      ensures r == Plus(Lookup(old(cache), StorageKey(key), Null), step)
      ensures r.Some? ==> cache == old(cache)[StorageKey(key) := Int(r.value)]
      ensures r.None? ==> cache == old(cache)
    {
      var sk := StorageKey(key);
      var held := Lookup(cache, sk, Null);
      r := Plus(held, step);
      if r.Some? {
        cache := cache[sk := Int(r.value)];
      }
    }

    /** `inc` with the step negated. */
    method Dec(key: string, step: int) returns (r: Option<int>)
      modifies this
      ensures r == Plus(Lookup(old(cache), StorageKey(key), Null), -1 * step)
      ensures r.Some? ==> cache == old(cache)[StorageKey(key) := Int(r.value)]
      ensures r.None? ==> cache == old(cache)
    {
      r := Inc(key, -1 * step);
    }

    /** Empties the whole map. */
    method Clear() returns (ok: bool)
      modifies this
      ensures ok
      ensures cache == map[]
    {
      cache := map[];
      ok := true;
    }

    /** Everything the adapter holds, keyed by storage key. */
    method All() returns (m: map<string, Value>)
      ensures m == cache
    {
      m := cache;
    }

    /** The storage keys of two key lists put together are those of each. */
    lemma KeysAppend(xs: seq<string>, ys: seq<string>)
      ensures (set j | j in xs + ys :: StorageKey(j))
           == (set j | j in xs :: StorageKey(j)) + (set j | j in ys :: StorageKey(j))
    {
    }

    /**
     * Deletes every key of a possibly nested array, depth first and in
     * order, and always reports success.
     */
    method MultiDelete(keys: seq<KeyItem>) returns (ok: bool)
      modifies this
      ensures ok
      ensures cache == old(cache) - (set k | k in Flatten(keys) :: StorageKey(k))
      decreases keys
    {
      for i := 0 to |keys|
        invariant cache == old(cache) - (set k | k in Flatten(keys[..i]) :: StorageKey(k))
      {
        FlattenAppend(keys[..i], [keys[i]]);
        assert keys[..i + 1] == keys[..i] + [keys[i]];
        ghost var done := Flatten(keys[..i]);
        match keys[i]
        case Leaf(k) =>
          assert Flatten([keys[i]]) == [k];
          var _ := Delete(k);
          KeysAppend(done, [k]);
        case Group(sub) =>
          assert [keys[i]][1..] == [];
          assert Flatten([keys[i]]) == Flatten(sub);
          var _ := MultiDelete(sub);
          KeysAppend(done, Flatten(sub));
      }
      assert keys[..|keys|] == keys;
      ok := true;
    }

    /**
     * Returns the cached value when the key is set; otherwise produces the
     * value, stores it and returns it. `invoked` records whether the
     * producer ran.
     */
    method GetCallback(key: string, producer: Producer, ttl: TtlArg) returns (r: Value, ghost invoked: bool)
      modifies this
      ensures invoked <==> !IsSet(old(cache), StorageKey(key))
      ensures invoked ==> r == Produce(producer) && cache == old(cache)[StorageKey(key) := r]
      ensures !invoked ==> r == old(cache)[StorageKey(key)] && cache == old(cache)
    {
      var present := Exists(key, Unset);
      if !present {
        invoked := true;
        r := Produce(producer);
        Set(key, r, ttl);
      } else {
        invoked := false;
        r := Get(key, Null, Unset);
      }
    }
  }

  // -----------------------------------------------------------------------
  // What the adapter promises over any prior contents of the map.

  /** A non-null value is read back as stored, whatever the default. */
  lemma GetAfterSet(cache: map<string, Value>, sk: string, v: Value, d: Value)
    requires v != Null
    ensures IsSet(cache[sk := v], sk)
    ensures Lookup(cache[sk := v], sk, d) == v
  {
  }

  /** A stored `null` reads as a missing key. */
  lemma NullLooksAbsent(cache: map<string, Value>, sk: string, d: Value)
    ensures !IsSet(cache[sk := Null], sk)
    ensures Lookup(cache[sk := Null], sk, d) == d
  {
  }

  /** Writing or deleting one storage key leaves every other one as it was. */
  lemma OtherKeysUntouched(cache: map<string, Value>, sk: string, other: string, v: Value, d: Value)
    requires other != sk
    ensures Lookup(cache[sk := v], other, d) == Lookup(cache, other, d)
    ensures Lookup(cache - {sk}, other, d) == Lookup(cache, other, d)
  {
  }

  /**
   * Two adapters over one shared map whose namespaces are dash-free and
   * sanitise differently never see each other's writes.
   */
  lemma SharedMapIsolation(cache: map<string, Value>, c1: Config, c2: Config, k1: string, k2: string, v: Value, d: Value)
    requires '-' !in c1.namespace && '-' !in c2.namespace
    requires Sanitize(c1.namespace) != Sanitize(c2.namespace)
    ensures Lookup(cache[Key(c1, k1) := v], Key(c2, k2), d) == Lookup(cache, Key(c2, k2), d)
  {
    NamespaceIsolation(c1, c2, k1, k2);
  }

  // -----------------------------------------------------------------------
  // Call sequences on fresh adapters.

  /** The unit test: "one" stores a name that "two" cannot see. */
  method NamespaceTest() returns (seen: Value, unseen: Value)
    ensures seen == Blob("John")
    ensures unseen == Null
  {
    var one := new Memory(Options(Some("one"), None));
    one.Set("name", Blob("John"), Unset);
    var two := new Memory(Options(Some("two"), None));
    seen := one.Get("name", Null, Unset);
    unseen := two.Get("name", Null, Unset);
  }

  /** A fresh adapter holds nothing; after a non-null `set` it holds it, for any TTLs. */
  method SetThenGet(opts: Options, key: string, v: Value, d: Value, setTtl: TtlArg, getTtl: TtlArg)
    returns (before: bool, after: bool, r: Value)
    requires v != Null
    ensures !before && after
    ensures r == v
  {
    var m := new Memory(opts);
    before := m.Exists(key, getTtl);
    m.Set(key, v, setTtl);
    after := m.Exists(key, getTtl);
    r := m.Get(key, d, getTtl);
  }

  /** After storing `null`, `get` returns the default and `exists` is false. */
  method NullIsAbsent(opts: Options, key: string, d: Value) returns (r: Value, e: bool)
    ensures r == d && !e
  {
    var m := new Memory(opts);
    m.Set(key, Null, Unset);
    r := m.Get(key, d, Unset);
    e := m.Exists(key, Unset);
  }

  /** From an absent key, `inc(k, s)` then `dec(k, s)` return `s` then 0. */
  method IncThenDec(opts: Options, key: string, step: int) returns (up: Option<int>, down: Option<int>)
    ensures up == Some(step) && down == Some(0)
  {
    var m := new Memory(opts);
    up := m.Inc(key, step);
    down := m.Dec(key, step);
  }

  /** After a delete the key is gone, and deleting it again still succeeds. */
  method DeleteIsIdempotent(opts: Options, key: string, v: Value) returns (first: bool, second: bool, e: bool)
    ensures first && second && !e
  {
    var m := new Memory(opts);
    m.Set(key, v, Unset);
    first := m.Delete(key);
    second := m.Delete(key);
    e := m.Exists(key, Unset);
  }

  /** `clear` reports success and leaves `all()` empty. */
  method ClearEmpties(opts: Options, key: string, v: Value) returns (ok: bool, all: map<string, Value>)
    ensures ok && all == map[]
  {
    var m := new Memory(opts);
    m.Set(key, v, Unset);
    ok := m.Clear();
    all := m.All();
  }

  /** `multiDelete([k1, [k2, k3]])` removes all three keys. */
  method NestedDelete(opts: Options, k1: string, k2: string, k3: string) returns (e1: bool, e2: bool, e3: bool)
    ensures !e1 && !e2 && !e3
  {
    var m := new Memory(opts);
    m.Set(k1, Int(1), Unset);
    m.Set(k2, Int(2), Unset);
    m.Set(k3, Int(3), Unset);
    NestedExample(k1, k2, k3);
    var _ := m.MultiDelete([Leaf(k1), Group([Leaf(k2), Leaf(k3)])]);
    e1 := m.Exists(k1, Unset);
    e2 := m.Exists(k2, Unset);
    e3 := m.Exists(k3, Unset);
  }

  /** Two `getCallback` calls with a non-null producer run it once and agree. */
  method CallbackOnce(opts: Options, key: string, p: Producer)
    returns (r1: Value, r2: Value, ghost ran1: bool, ghost ran2: bool)
    requires Produce(p) != Null
    ensures r1 == r2 == Produce(p)
    ensures ran1 && !ran2
  {
    var m := new Memory(opts);
    r1, ran1 := m.GetCallback(key, p, Secs(0));
    r2, ran2 := m.GetCallback(key, p, Secs(0));
  }

  /** A producer of `null` is run again on every call, since `null` is never set. */
  method NullCallbackRepeats(opts: Options, key: string, p: Producer)
    returns (r1: Value, r2: Value, ghost ran1: bool, ghost ran2: bool)
    requires Produce(p) == Null
    ensures r1 == Null && r2 == Null
    ensures ran1 && ran2
  {
    var m := new Memory(opts);
    r1, ran1 := m.GetCallback(key, p, Secs(0));
    r2, ran2 := m.GetCallback(key, p, Secs(0));
  }
}
