/**
 * The logic every adapter shares: configuration defaulting, the key
 * sanitiser, TTL resolution, the nested key lists of `multiDelete` and the
 * producer of `getCallback`. The two stateful members of the shared code,
 * `multiDelete` and `getCallback`, call the adapter's own methods, so they
 * are methods of each adapter class; what they must do is stated here.
 */
module CacheTrait {
  import opened Wrappers
  import opened CacheInterface

  // ---------------------------------------------------------------------
  // Configuration

  /**
   * The configuration array a caller passes to the constructor, restricted
   * to the two keys the shared code reads; None means the key is missing
   * from the array.
   */
  datatype Options = Options(namespace: Option<string>, ttl: Option<TtlArg>)

  /** The configuration an adapter keeps after construction. */
  datatype Config = Config(namespace: string, ttl: TtlArg)

  /**
   * PHP's array union `$config + ['namespace' => 'app', 'ttl' => ONE_MINUTE]`:
   * a key the caller supplied keeps the caller's value, a missing key gets
   * the default.
   */
  function WithDefaults(o: Options): Config
  {
    Config(o.namespace.GetOr("app"), o.ttl.GetOr(Secs(ONE_MINUTE)))
  }

  /** A caller who supplies nothing gets one minute as the default TTL. */
  lemma DefaultTtlIsOneMinute()
    ensures GetTtl(WithDefaults(Options(None, None)), Unset) == ONE_MINUTE
    ensures GetNamespace(WithDefaults(Options(None, None))) == "app"
  {
  }

  /** Supplying every recognised key reproduces exactly what was supplied. */
  lemma FullOptionsWin(ns: string, ttl: TtlArg)
    ensures WithDefaults(Options(Some(ns), Some(ttl))) == Config(ns, ttl)
  {
  }

  function GetNamespace(c: Config): string {
    c.namespace
  }

  // ---------------------------------------------------------------------
  // TTL resolution

  /**
   * `(int)$ttl ?: (int)$this->config['ttl']`: a nonzero requested TTL is
   * used as given (negative values included), while `null` and 0 both fall
   * back to the configured default.
   */
  function GetTtl(c: Config, t: TtlArg): (r: int)
    ensures r == 0 <==> IntOf(t) == 0 && IntOf(c.ttl) == 0
  {
    if IntOf(t) != 0 then IntOf(t) else IntOf(c.ttl)
  }

  /** NO_LIMIT does not mean "never expires": it resolves to the default. */
  lemma NoLimitMeansDefault(c: Config)
    ensures GetTtl(c, Secs(NO_LIMIT)) == GetTtl(c, Unset) == IntOf(c.ttl)
  {
  }

  /** Resolving an already resolved TTL changes nothing. */
  lemma GetTtlIdempotent(c: Config, t: TtlArg)
    ensures GetTtl(c, Secs(GetTtl(c, t))) == GetTtl(c, t)
  {
  }

  // ---------------------------------------------------------------------
  // Key sanitiser
  //
  // PHP strings are byte strings and the regex has no `/u` flag, so it works
  // byte by byte. Each `char` of a key stands for one byte (a value below
  // 256); a multibyte UTF-8 character is the sequence of its bytes.

  /** The bytes the sanitiser's character class `[0-9a-zA-Z_\-\:]` keeps. */
  predicate Allowed(b: char) {
    ('0' <= b <= '9') || ('a' <= b <= 'z') || ('A' <= b <= 'Z') || b == '_' || b == '-' || b == ':'
  }

  function Scrub(b: char): char {
    if Allowed(b) then b else '_'
  }

  /**
   * `preg_replace('/[^0-9a-zA-Z_\-\:]/', '_', s)`: every byte outside the
   * allowed class becomes `_`, everything else stays where it was.
   */
  function Sanitize(s: string): (r: string)
    ensures |r| == |s|
    ensures forall i :: 0 <= i < |s| ==> r[i] == Scrub(s[i])
  {
    if s == [] then [] else [Scrub(s[0])] + Sanitize(s[1..])
  }

  /** The storage key `key($key)`: namespace, a dash, then the raw key, sanitised. */
  function Key(c: Config, k: string): string {
    Sanitize(GetNamespace(c) + "-" + k)
  }

  /** Every byte of a sanitised string is allowed. */
  lemma SanitizedIsAllowed(s: string)
    ensures forall i :: 0 <= i < |Sanitize(s)| ==> Allowed(Sanitize(s)[i])
  {
  }

  /** A string made only of allowed bytes is left as it is. */
  lemma SanitizeKeepsAllowed(s: string)
    requires forall i :: 0 <= i < |s| ==> Allowed(s[i])
    ensures Sanitize(s) == s
  {
  }

  /** Sanitising twice is sanitising once. */
  lemma SanitizeIdempotent(s: string)
    ensures Sanitize(Sanitize(s)) == Sanitize(s)
  {
  }

  /** The sanitiser works byte by byte, so it distributes over concatenation. */
  lemma SanitizeConcat(a: string, b: string)
    ensures Sanitize(a + b) == Sanitize(a) + Sanitize(b)
  {
  }

  /** A storage key is the sanitised namespace, a dash and the sanitised raw key. */
  lemma KeyShape(c: Config, k: string)
    ensures Key(c, k) == Sanitize(c.namespace) + "-" + Sanitize(k)
    ensures |Key(c, k)| == |c.namespace| + 1 + |k|
  {
  }

  /**
   * Namespace isolation: when neither namespace contains a dash and they
   * sanitise differently, no raw key of one ever meets a raw key of the other.
   */
  lemma NamespaceIsolation(c1: Config, c2: Config, k1: string, k2: string)
    requires '-' !in c1.namespace && '-' !in c2.namespace
    requires Sanitize(c1.namespace) != Sanitize(c2.namespace)
    ensures Key(c1, k1) != Key(c2, k2)
  {
    var n1, n2 := c1.namespace, c2.namespace;
    var a, b := Key(c1, k1), Key(c2, k2);
    KeyShape(c1, k1);
    KeyShape(c2, k2);
    if |n1| == |n2| {
      var i :| 0 <= i < |n1| && Sanitize(n1)[i] != Sanitize(n2)[i];
      assert a[i] == Sanitize(n1)[i] && b[i] == Sanitize(n2)[i];
    } else if |n1| < |n2| {
      assert a[|n1|] == '-';
      assert b[|n1|] == Scrub(n2[|n1|]) != '-';
    } else {
      assert b[|n2|] == '-';
      assert a[|n2|] == Scrub(n1[|n2|]) != '-';
    }
  }

  /** The two namespaces of the unit test never share a storage key. */
  lemma OneAndTwoAreIsolated(k1: string, k2: string)
    ensures Key(Config("one", Unset), k1) != Key(Config("two", Unset), k2)
  {
  }

  /** A dash inside a namespace lets two different (namespace, key) pairs collide. */
  lemma DashInNamespaceCollides()
    ensures Key(Config("a-b", Unset), "c") == Key(Config("a", Unset), "b-c")
  {
  }

  /**
   * Keys are byte strings, one `char` per byte, so a multibyte character is
   * several chars: "é" in UTF-8 (bytes C3 A9) sanitises like "__", and the
   * two namespaces collide.
   */
  lemma MultibyteNamespaceCollides()
    ensures Key(Config("\U{C3}\U{A9}", Unset), "k") == Key(Config("__", Unset), "k") == "__-k"
  {
  }

  /** Dot and slash are not kept: namespaces differing only there collide. */
  lemma DotAndSlashAreReplaced()
    ensures Key(Config("a.b", Unset), "x") == Key(Config("a/b", Unset), "x") == "a_b-x"
  {
  }

  // ---------------------------------------------------------------------
  // multiDelete

  /** An element of the array `multiDelete` takes: a key, or a nested array. */
  datatype KeyItem = Leaf(key: string) | Group(items: seq<KeyItem>)

  /** The keys `multiDelete` passes to `delete`, in the order it passes them. */
  function Flatten(items: seq<KeyItem>): seq<string>
    decreases items
  {
    if items == [] then []
    else
      (match items[0]
       case Leaf(k) => [k]
       case Group(sub) => Flatten(sub))
      + Flatten(items[1..])
  }

  /** Flattening a list is flattening its parts one after the other. */
  lemma {:induction false} FlattenAppend(xs: seq<KeyItem>, ys: seq<KeyItem>)
    ensures Flatten(xs + ys) == Flatten(xs) + Flatten(ys)
    decreases |xs|
  {
    if xs == [] {
      assert xs + ys == ys;
    } else {
      assert (xs + ys)[0] == xs[0];
      assert (xs + ys)[1..] == xs[1..] + ys;
      FlattenAppend(xs[1..], ys);
    }
  }

  /** A flat key, at any depth, is one of the keys passed to `delete`, and conversely. */
  lemma {:induction false} FlattenMembers(items: seq<KeyItem>, k: string)
    ensures k in Flatten(items) <==>
              exists i :: 0 <= i < |items| && (items[i] == Leaf(k) || (items[i].Group? && k in Flatten(items[i].items)))
    decreases items
  {
    if items != [] {
      FlattenMembers(items[1..], k);
      if k in Flatten(items[1..]) {
        var j :| 0 <= j < |items[1..]| && (items[1..][j] == Leaf(k) || (items[1..][j].Group? && k in Flatten(items[1..][j].items)));
        assert items[j + 1] == items[1..][j];
      }
      forall i | 1 <= i < |items|
        ensures items[i] == items[1..][i - 1]
      {
      }
    }
  }

  /** `multiDelete([k1, [k2, k3]])` passes k1, k2 and k3 to `delete`, in that order. */
  lemma NestedExample(k1: string, k2: string, k3: string)
    ensures Flatten([Leaf(k1), Group([Leaf(k2), Leaf(k3)])]) == [k1, k2, k3]
  {
    var inner := [Leaf(k2), Leaf(k3)];
    assert Flatten(inner[1..]) == [k3] by { assert inner[1..][1..] == []; }
    assert Flatten(inner) == [k2, k3];
    var outer := [Leaf(k1), Group(inner)];
    assert outer[1..][1..] == [];
    assert Flatten(outer[1..]) == [k2, k3];
  }

  // ---------------------------------------------------------------------
  // getCallback

  /** The second argument of `getCallback`: a plain value, or a callable. */
  datatype Producer = Literal(v: Value) | Callable(f: () -> Value)

  /** `is_callable($callback) ? call_user_func($callback) : $callback`. */
  function Produce(p: Producer): Value
  {
    match p
    case Literal(v) => v
    case Callable(f) => f()
  }
}
