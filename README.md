# rapture-cache core, modelled in Dafny

This project models the shared core of the Rapture cache library (PHP) and
two of its adapters:

- **CacheInterface** (`cache_interface.dfy`): the TTL preset constants. It
  also holds the values a cache stores (`null`, integers, any other value as
  an opaque blob) and the TTL argument (`null` or a number of seconds).
- **CacheTrait** (`cache_trait.dfy`): the logic every adapter shares.
  - Configuration defaulting by PHP array union.
  - The key sanitiser `key()`.
  - TTL resolution `getTtl()` and `getNamespace()`.
  - The nested key lists of `multiDelete`.
  - The producer of `getCallback`.
- **MemoryAdapter** (`memory.dfy`): class `Memory`, which keeps a
  per-instance map from sanitised key to value. Presence is PHP `isset`, so
  a stored `null` counts as absent. TTLs are ignored.
- **FileAdapter** (`file.dfy`): class `File`. The filesystem is a map
  `disk` from path (`namespace/rawKey`) to an entry (value, mtime), and the
  clock is a `now` argument. An entry is live while `mtime + ttl > now`.
  Any read that finds an entry missing or expired deletes it.
- **Wrappers** (`wrappers.dfy`): an `Option` type.

`multiDelete` and `getCallback` come from the shared trait but call the
adapter's own `exists`, `get`, `set` and `delete`. So each is a method of
both adapter classes. Their shared parts (`Flatten`, `Produce`) are defined
once in `CacheTrait`.

Each class method states its whole new state. Its partners are:
- lemmas over the underlying map (get after set, null looks absent, other
  keys are untouched, isolation on a shared map);
- module-level methods that run the call sequences callers rely on, on
  fresh adapters: set then get, inc then dec, delete twice, nested
  multiDelete, getCallback twice, lazy expiry, and the namespace unit test.

## Where the code and its documentation disagree (the model follows the code)

- The sanitiser's doc comment (src/Definition/CacheTrait.php:38) says dot
  and slash are allowed. The regex keeps `[0-9a-zA-Z_:-]`: colon is kept,
  and dot and slash become `_` (`CacheTrait.DotAndSlashAreReplaced`).
- `Memory::set` is documented to return bool (src/Adapter/Memory.php:33)
  but returns nothing. The model gives it no result.
- The name `NO_LIMIT` suggests "no expiry", but a per-call TTL of
  `NO_LIMIT` (0) falls back through `getTtl` to the configured default
  (`CacheTrait.NoLimitMeansDefault`). Only a configured TTL of 0 makes
  `getTtl` return 0.

## Behaviour of the code worth knowing

- The File adapter builds its paths as `namespace/rawKey`. It never calls
  `key()`, so paths are not sanitised and have no `-` separator
  (`FileAdapter.PathIsNotKey`). A slash in a raw key can even reach another
  namespace's directory (`FileAdapter.PathsCrossNamespaces`).
- `getTtl` returns `(int)$ttl` unchanged when it is nonzero, negative values
  included.
- With a configured TTL of 0, every File read that falls back to the
  configured TTL finds an entry expired at once
  (`FileAdapter.ZeroTtlExpiresAtOnce`); the code has no special case for it.
  These reads are `get` and `exists` called with a null or 0 TTL, and
  `inc`, `dec` and `getCallback`, which always fall back. A `get` or
  `exists` with an explicit positive TTL is unaffected
  (`FileAdapter.ExplicitTtlOverridesZero`).
- Starting from a missing key, two `getCallback` calls run the producer
  once only in some cases:
  - Memory: only for producers that give a non-null value
    (`MemoryAdapter.CallbackOnce`, `MemoryAdapter.NullCallbackRepeats`);
  - File: only when the default TTL is positive and the second call comes
    before the entry written by the first expires
    (`FileAdapter.CallbackOnce`).
- Namespaces are isolated when they contain no `-` and sanitise
  differently, judged byte by byte (`CacheTrait.NamespaceIsolation`;
  `CacheTrait.MultibyteNamespaceCollides` shows the byte-wise case). A `-`
  can, but need not, cause a collision (`CacheTrait.DashInNamespaceCollides`).

## Model

| member | source | states |
|---|---|---|
| `CacheInterface.PresetsAgree` | src/Definition/CacheInterface.php:14-20 | ONE_HOUR = 60·ONE_MINUTE, ONE_DAY = 24·ONE_HOUR, ONE_WEEK = 7·ONE_DAY, TWO_WEEKS = 14·ONE_DAY = 2·ONE_WEEK, ONE_MONTH = 30·ONE_DAY, NO_LIMIT = 0 |
| `CacheInterface.IntOf` | src/Definition/CacheTrait.php:103 | no contract of its own; PHP's `(int)` cast of a TTL argument (`null` is 0), described through `GetTtl`, `NoLimitMeansDefault` and `GetTtlIdempotent` |
| `CacheInterface.Plus` | src/Adapter/Memory.php:98 | no contract of its own; `$held + $step` with null as 0 and every non-integer value as a raise (None), described by `PlusCancels` and the `Inc`/`Dec` contracts |
| `CacheInterface.PlusCancels` | src/Adapter/Memory.php:97-99 | adding a step and then `-1 * step` to an integer or null gives back the integer held (0 for null) |
| `CacheTrait.WithDefaults` | src/Definition/CacheTrait.php:21-29 | no contract of its own; the array union `$config + defaults`, described by `FullOptionsWin` and `DefaultTtlIsOneMinute` |
| `CacheTrait.DefaultTtlIsOneMinute` | src/Definition/CacheTrait.php:23-26 | with nothing supplied, the namespace is "app" and the resolved default TTL is ONE_MINUTE |
| `CacheTrait.FullOptionsWin` | src/Definition/CacheTrait.php:23-26 | supplying both keys yields exactly the supplied configuration |
| `CacheTrait.GetNamespace` | src/Definition/CacheTrait.php:106-109 | no contract of its own; returns the configured namespace, whose default "app" `DefaultTtlIsOneMinute` states |
| `CacheTrait.GetTtl` | src/Definition/CacheTrait.php:101-104 | the resolved TTL is 0 exactly when both the requested and the configured TTL cast to 0; see also `NoLimitMeansDefault`, `GetTtlIdempotent` |
| `CacheTrait.NoLimitMeansDefault` | src/Definition/CacheTrait.php:103 | `getTtl(NO_LIMIT)` equals `getTtl(null)`, the configured default, not "no expiry" |
| `CacheTrait.GetTtlIdempotent` | src/Definition/CacheTrait.php:103 | resolving an already resolved TTL returns it unchanged |
| `CacheTrait.Sanitize` | src/Definition/CacheTrait.php:46 | the output has the input's length; each byte is kept if in `[0-9a-zA-Z_:-]`, otherwise it is `_` |
| `CacheTrait.SanitizedIsAllowed` | src/Definition/CacheTrait.php:46 | every byte of a sanitised string is in the allowed class |
| `CacheTrait.SanitizeKeepsAllowed` | src/Definition/CacheTrait.php:46 | a string of allowed bytes is left unchanged |
| `CacheTrait.SanitizeIdempotent` | src/Definition/CacheTrait.php:46 | sanitising twice equals sanitising once |
| `CacheTrait.SanitizeConcat` | src/Definition/CacheTrait.php:46 | sanitising distributes over concatenation |
| `CacheTrait.Key` | src/Definition/CacheTrait.php:44-47 | no contract of its own; `Sanitize(namespace + "-" + k)`, described by `KeyShape` and `NamespaceIsolation` |
| `CacheTrait.KeyShape` | src/Definition/CacheTrait.php:44-47 | `key(k)` is sanitised namespace + `-` + sanitised k, of length \|ns\| + 1 + \|k\| |
| `CacheTrait.NamespaceIsolation` | src/Definition/CacheTrait.php:44-47 | dash-free namespaces that sanitise differently never produce the same key, for any raw keys |
| `CacheTrait.OneAndTwoAreIsolated` | test/unit/CacheTest.php:7-14 | the namespaces "one" and "two" never share a storage key |
| `CacheTrait.DashInNamespaceCollides` | src/Definition/CacheTrait.php:46 | without the dash-free condition isolation fails: ("a-b","c") and ("a","b-c") collide |
| `CacheTrait.MultibyteNamespaceCollides` | src/Definition/CacheTrait.php:46 | the bytes of UTF-8 "é" (C3 A9) sanitise like "__", so those two namespaces share the key "__-k" |
| `CacheTrait.DotAndSlashAreReplaced` | src/Definition/CacheTrait.php:36-47 | contrary to the doc comment, `.` and `/` both become `_` ("a.b" and "a/b" give the same key) |
| `CacheTrait.Flatten` | src/Definition/CacheTrait.php:58-65 | no contract of its own; the keys the `foreach`/`is_array` walk passes to `delete`, depth first and in order, described by `FlattenAppend` and `FlattenMembers` |
| `CacheTrait.FlattenAppend` | src/Definition/CacheTrait.php:58-65 | the keys deleted for a concatenated list are those of each part, in order |
| `CacheTrait.FlattenMembers` | src/Definition/CacheTrait.php:56-68 | a key is deleted iff it is a leaf of the array or is deleted by a nested array |
| `CacheTrait.NestedExample` | src/Definition/CacheTrait.php:58-65 | `[k1, [k2, k3]]` deletes k1, k2, k3 in that order |
| `CacheTrait.Produce` | src/Definition/CacheTrait.php:82-84 | no contract of its own; a callable yields its result, a plain value itself; used as the reference value by both `GetCallback` contracts |
| `MemoryAdapter.IsSet` | src/Adapter/Memory.php:53-68 | no contract of its own; PHP `isset`: the key is present and does not hold null |
| `MemoryAdapter.Lookup` | src/Adapter/Memory.php:53-55 | no contract of its own; `isset ? value : default`, described by `GetAfterSet`, `NullLooksAbsent` and `OtherKeysUntouched` |
| `MemoryAdapter.Memory.constructor` | src/Definition/CacheTrait.php:21-29 | configuration is the defaulted options; the map starts empty |
| `MemoryAdapter.Memory.Set` | src/Adapter/Memory.php:35-38 | the map afterwards is the old map with `key(k)` overwritten by the data, whatever the TTL |
| `MemoryAdapter.Memory.Get` | src/Adapter/Memory.php:49-56 | the stored value if `isset`, otherwise the default; nothing changes |
| `MemoryAdapter.Memory.Exists` | src/Adapter/Memory.php:66-69 | true iff `key(k)` is present with a non-null value; nothing changes |
| `MemoryAdapter.Memory.Delete` | src/Adapter/Memory.php:78-83 | returns true and removes exactly `key(k)`, present or not |
| `MemoryAdapter.Memory.Inc` | src/Adapter/Memory.php:93-102 | returns the held integer (0 if unset) plus step and stores it at `key(k)` only; a non-integer leaves the map unchanged |
| `MemoryAdapter.Memory.Dec` | src/Adapter/Memory.php:112-115 | behaves as `inc(k, -1 * step)` |
| `MemoryAdapter.Memory.Clear` | src/Adapter/Memory.php:122-127 | returns true and leaves the map empty |
| `MemoryAdapter.Memory.All` | src/Adapter/Memory.php:134-137 | returns the whole map |
| `MemoryAdapter.Memory.MultiDelete` | src/Definition/CacheTrait.php:56-68 | returns true; removes `key(k)` for every leaf k at any depth and nothing else |
| `MemoryAdapter.Memory.GetCallback` | src/Definition/CacheTrait.php:79-92 | when unset: the producer runs and its value is stored and returned; when set: the stored value, the map unchanged, the producer not run |
| `MemoryAdapter.GetAfterSet` | src/Adapter/Memory.php:35-56 | after storing a non-null value it is set and read back whatever the default |
| `MemoryAdapter.NullLooksAbsent` | src/Adapter/Memory.php:53-68 | after storing null the key is not set and reads give the default |
| `MemoryAdapter.OtherKeysUntouched` | src/Adapter/Memory.php:35-83 | writing or deleting one key leaves every other key's reading unchanged |
| `MemoryAdapter.SharedMapIsolation` | src/Definition/CacheTrait.php:46 | over one shared map, a write through one isolated namespace is invisible through the other |
| `MemoryAdapter.NamespaceTest` | test/unit/CacheTest.php:5-15 | "one" reads back "John"; "two" reads null for the same raw key |
| `MemoryAdapter.SetThenGet` | src/Adapter/Memory.php:35-69 | on a fresh adapter `exists` is false; after setting a non-null value it is true and `get` returns it, for any TTLs |
| `MemoryAdapter.NullIsAbsent` | src/Adapter/Memory.php:53-68 | after `set(k, null)`, `get` returns the default and `exists` is false |
| `MemoryAdapter.IncThenDec` | src/Adapter/Memory.php:93-115 | from an absent key, `inc(k, s)` then `dec(k, s)` return s then 0 |
| `MemoryAdapter.DeleteIsIdempotent` | src/Adapter/Memory.php:78-83 | both deletes return true and the key no longer exists |
| `MemoryAdapter.ClearEmpties` | src/Adapter/Memory.php:122-137 | `clear` returns true and `all()` is then empty |
| `MemoryAdapter.NestedDelete` | src/Definition/CacheTrait.php:56-68 | `multiDelete([k1, [k2, k3]])` leaves none of the three keys existing |
| `MemoryAdapter.CallbackOnce` | src/Definition/CacheTrait.php:79-92 | two calls with a non-null producer return the same value and run the producer only the first time |
| `MemoryAdapter.NullCallbackRepeats` | src/Definition/CacheTrait.php:81 | a producer of null is run on each call, since null never counts as set |
| `FileAdapter.PathOf` | src/Adapter/File.php:39 | no contract of its own; `namespace/rawKey`, described by `PathInjective`, `PathIsNotKey` and `PathsCrossNamespaces` |
| `FileAdapter.PathInjective` | src/Adapter/File.php:39 | within one namespace, two raw keys with the same path are the same key |
| `FileAdapter.Live` | src/Adapter/File.php:55-77 | no contract of its own; `is_readable` and `filemtime + ttl > now` (strict), the liveness test of `get` and `exists`; `LiveAfterWrite` states it for a fresh write |
| `FileAdapter.File.constructor` | src/Definition/CacheTrait.php:21-29 | configuration is the defaulted options; the filesystem is the one given |
| `FileAdapter.File.Set` | src/Adapter/File.php:31-40 | returns true; the entry at the path is overwritten with the data and mtime `now`; the TTL is not used |
| `FileAdapter.File.Delete` | src/Adapter/File.php:94-99 | returns true; removes only the path; a missing path changes nothing |
| `FileAdapter.File.Get` | src/Adapter/File.php:51-62 | the stored value iff present and `mtime + getTtl(t) > now` (store unchanged); otherwise the default, and the path is removed |
| `FileAdapter.File.Exists` | src/Adapter/File.php:72-85 | true iff live; present but expired is deleted; missing leaves the store unchanged |
| `FileAdapter.File.Inc` | src/Adapter/File.php:109-115 | returns the live value (null, i.e. 0, if missing or expired) plus step and writes it with mtime `now`; a non-integer leaves the store unchanged |
| `FileAdapter.File.Dec` | src/Adapter/File.php:125-128 | behaves as `inc(k, -1 * step)` |
| `FileAdapter.File.MultiDelete` | src/Definition/CacheTrait.php:56-68 | returns true; removes the path of every leaf at any depth and nothing else |
| `FileAdapter.File.GetCallback` | src/Definition/CacheTrait.php:79-92 | no live entry at the check: the producer runs and its value is written and returned; otherwise `get` decides, giving null if the entry expired in between |
| `FileAdapter.PathsCrossNamespaces` | src/Adapter/File.php:34-39 | namespace "a" with key "b/c" and namespace "a/b" with key "c" use the same file |
| `FileAdapter.PathIsNotKey` | src/Adapter/File.php:39 | the file path is never the sanitised `key(k)` |
| `FileAdapter.LiveAfterWrite` | src/Adapter/File.php:39-55 | an entry written at t is live at now iff now < t + ttl |
| `FileAdapter.ExpiryScenario` | src/Adapter/File.php:53-61 | a value set at t is read back before t + default TTL; from then on the default is returned and the file is gone |
| `FileAdapter.ZeroTtlExpiresAtOnce` | src/Adapter/File.php:53-84 | with a configured TTL of 0, an entry written now is already not existing and `get` gives the default |
| `FileAdapter.ExplicitTtlOverridesZero` | src/Adapter/File.php:53-84 | with a configured TTL of 0, an entry written now still exists and is read back when `exists`/`get` pass a positive TTL |
| `FileAdapter.IncThenDec` | src/Adapter/File.php:109-128 | from a missing key in one second: s then 0 if the default TTL is positive, s then -s otherwise |
| `FileAdapter.DeleteIsIdempotent` | src/Adapter/File.php:94-99 | both deletes return true and the file is gone |
| `FileAdapter.NestedDelete` | src/Definition/CacheTrait.php:56-68 | `multiDelete([k1, [k2, k3]])` removes all three files |
| `FileAdapter.CallbackOnce` | src/Definition/CacheTrait.php:79-92 | from a missing key with a positive default TTL, two calls in one second return the same value and run the producer once |

## Left out

- src/Adapter/Memcached.php and src/Adapter/Apcu.php are not part of this
  model. They are thin wrappers over PHP extensions whose native TTL,
  result codes, atomic increment and flush cannot be seen.
- `File::clear` is not modelled: it runs `rm -Rf` through the shell.
- Filesystem details are not modelled: `mkdir` of the namespace directory,
  permissions, `LOCK_EX`, and the `is_readable` nuances. A path is only
  present or absent.
- Failed writes and unlinks are not modelled: `File.Set` and `File.Delete`
  always succeed.
- File paths are compared as strings: `ns/./x`, `ns//x` and `ns/y/../x`
  are different entries of `disk`, although on a real filesystem they name
  the same file as `ns/x`. Path aliasing is not modelled.
- `Memory.All` returns the map, which has no order; PHP's `all()` returns
  an array ordered by first insertion, and that order is not modelled.
- `serialize`/`unserialize` are the identity on values.
- PHP type juggling is not modelled:
  - `(int)` casts of string TTLs;
  - a non-string namespace or a non-integer TTL in the configuration;
  - numeric strings, floats and booleans under `+`.
  Every non-integer stored value (a `Blob`) is treated by `inc`/`dec` as
  if PHP's `+` raised, reported as `None`. PHP 8 raises a TypeError only
  for arrays, objects and non-numeric strings, and PHP 7 only for arrays;
  floats, booleans and numeric strings are juggled instead.
- Configuration keys other than `namespace` and `ttl` are not modelled;
  only the Memcached adapter reads them.
- A `null` supplied explicitly for `ttl` is modelled as the argument
  `Unset`, which resolves to `(int)null = 0` as in PHP.
- PHP integers are 64 bits wide and overflow to float. The model's
  integers are unbounded, so `inc` near the limits is not modelled.
- Keys are PHP byte strings, and each `char` of a model string stands for
  one byte, so a multibyte UTF-8 character is written as its bytes (as in
  `CacheTrait.MultibyteNamespaceCollides`). Under that reading `Sanitize`
  is exact and its lengths count bytes. The model does not forbid chars
  above 255, which no PHP string contains.
- The producer is a literal value or a function value. Strings and arrays
  that `is_callable` would accept as callables are not modelled.
- `init()` is an empty hook and is not modelled.
- Concurrency is not modelled: there are no interleavings between
  `exists`/`set` in `getCallback` or `get`/`set` in File `inc`.
- The clock is read once per operation. `File.Inc` reads and writes at the
  same `now`. Only `File.GetCallback` takes two clock readings: one for the
  check, one for the following `set`/`get`.
- MemoryAdapter.Memory.GetCallback, FileAdapter.File.GetCallback: "the
  producer is not run" is stated through a ghost flag, since running a
  function value has no observable effect in the model.
