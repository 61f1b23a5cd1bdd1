# Singleton pool model

A Dafny model of hutool's `Singleton` (`cn.hutool.core.lang.Singleton`). It is a process-wide keyed
object pool: a map from string keys to stored objects. It offers:

- get-or-create under a custom key, or under a key derived from a class and its construction parameters;
- an unconditional put, keyed either by a custom key or by the name of the object's runtime class;
- an existence check, removal by key or by class, and `destroy`, which empties the pool;
- the set of distinct runtime classes of the stored objects.

Layout:

- `wrappers.dfy` (module `Wrappers`): `Option` (where `None` is Java's `null`), `Result` and `Outcome`
  (a call that returns or throws).
- `keys.dfy` (module `Keys`): key derivation `BuildKey`. This is the class name alone, or
  `className#p1_p2_…`. It also holds a ghost inverse `ParseKey`, used to prove when two keys can collide.
- `pool_state.dfy` (module `PoolState`): the pool as a value (`map<string, Obj>`) and the effect of each
  operation on it, as functions whose contracts state the source's promises. It also defines sequences of
  calls (`Call`, `Run`) and lemmas relating several operations.
- `singleton.dfy` (module `SingletonPool`): class `Singleton` with a `pool` map field. Its methods update
  the field in place, and their `ensures` tie the new pool to the `PoolState` functions. `Exists` and
  `GetExistClass` only read the field.

Modelling choices:

- An object is `Obj(cls, id)`: the name of its runtime class and its identity. `ClassOf` gives the class name.
- A `Class` argument is given by its name, with `None` for a null class. Parameters are given by their
  string forms.
- A supplier or constructor call is given by what it does, a `Supplied` value. It either returns a reference,
  which may be null, or throws an `Error`.
- Class loading by name is given by the name of the loaded class, or `None` when loading fails.
- The backing `ConcurrentHashMap` refuses null values. So a put of null, or a supplier that returns null,
  ends in `NullPointer` and leaves the pool unchanged.
- The static pool is modelled as the single `pool` field of one `Singleton` object.

`get` does not check its key: an empty key is accepted like any other, as in the code.

## Model

Some lemmas below restate a scenario that follows in one step from the operations' contracts, and Dafny
proves them with an empty body: `GetTwice`, `PutPutGet`, `RemoveThenGet`, `ExistsAfterGet`,
`NothingExistsAfterDestroy`, `RemoveClassKeepsParameterised` and `ParamsCollide`. They record the scenarios;
the proofs by induction are `SplitJoin` and its helpers, `KeyRoundTrip` and `UntouchedEntryPersists`.

| member | source | states |
|---|---|---|
| `Keys.BuildKey` | hutool-core/src/main/java/cn/hutool/core/lang/Singleton.java:164-169 | with no parameters the key is the class name itself; with parameters it is longer than the class name and starts with `className#`, so it differs from the parameterless key |
| `Keys.SplitJoin` | hutool-core/src/main/java/cn/hutool/core/lang/Singleton.java:168 | joining parameters with `_` is undone by splitting on `_` when no parameter contains `_` |
| `Keys.KeyRoundTrip` | hutool-core/src/main/java/cn/hutool/core/lang/Singleton.java:164-169 | a key parses back to its class name and parameter list when the class name has no `#` and no parameter has `_` |
| `Keys.BuildKeyInjective` | hutool-core/src/main/java/cn/hutool/core/lang/Singleton.java:164-169 | under those conditions, equal keys mean equal class names and equal parameter lists |
| `Keys.ParamsCollide` | hutool-core/src/main/java/cn/hutool/core/lang/Singleton.java:164-168 | `["a_b"]` and `["a","b"]` both give `Foo#a_b`, and no parameters give `Foo`: parameters that join the same way share a key |
| `PoolState.GetOrCreate` | hutool-core/src/main/java/cn/hutool/core/lang/Singleton.java:54-65 | an existing entry is never overwritten or removed, and only `key` can be added; a present key returns its stored object without the supplier; an absent key returns the supplier's object, stored under `key`, or the supplier's exception; a null supplied object fails with `NullPointer`; on success the returned object is the stored one; any failure leaves the pool unchanged |
| `PoolState.PutEntry` | hutool-core/src/main/java/cn/hutool/core/lang/Singleton.java:100-102 | `key` maps to the object afterwards, overwriting any previous value; every other key is unchanged; a null object fails with `NullPointer` and changes nothing |
| `PoolState.RemoveEntry` | hutool-core/src/main/java/cn/hutool/core/lang/Singleton.java:144-146 | exactly `key` is gone, every other entry keeps its value, and an absent key is a no-op |
| `PoolState.ExistsIn` | hutool-core/src/main/java/cn/hutool/core/lang/Singleton.java:111-117 | false for a null class; otherwise true exactly when the key derived from the class name and parameters is in the pool |
| `PoolState.ClassesIn` | hutool-core/src/main/java/cn/hutool/core/lang/Singleton.java:124-126 | exactly the runtime classes of the stored values (not the keys), each once |
| `PoolState.UntouchedEntryPersists` | hutool-core/src/main/java/cn/hutool/core/lang/Singleton.java:59-63 | across any sequence of calls, an entry keeps its value unless a put or remove of that key, or a destroy, occurs; get-or-create never changes it |
| `PoolState.SameObjectUntilTouched` | hutool-core/src/main/java/cn/hutool/core/lang/Singleton.java:59-64 | after a get-or-create for a key succeeds, every later get-or-create for that key returns the same object, whatever its supplier, until the key is put, removed or destroyed |
| `PoolState.GetTwice` | hutool-core/src/main/java/cn/hutool/core/lang/Singleton.java:59-64 | two get-or-create calls in a row give the same result and pool; the second supplier is irrelevant |
| `PoolState.PutPutGet` | hutool-core/src/main/java/cn/hutool/core/lang/Singleton.java:100-102 | `put(k,v1); put(k,v2); get(k,_)` returns `v2` |
| `PoolState.RemoveThenGet` | hutool-core/src/main/java/cn/hutool/core/lang/Singleton.java:144-146 | after `remove(k)`, get-or-create for `k` installs and returns the supplier's object again |
| `PoolState.ExistsAfterGet` | hutool-core/src/main/java/cn/hutool/core/lang/Singleton.java:111-117 | after a successful get-or-create for a class and parameters, `exists` is true for them |
| `PoolState.NothingExistsAfterDestroy` | hutool-core/src/main/java/cn/hutool/core/lang/Singleton.java:151-153 | after `destroy`, `exists` is false for every class and parameters, and no class is reported |
| `PoolState.RemoveClassKeepsParameterised` | hutool-core/src/main/java/cn/hutool/core/lang/Singleton.java:133-137 | removing by class deletes the parameterless entry only; an entry under `className#params` survives |
| `PoolState.DistinctParamsDistinctEntries` | hutool-core/src/main/java/cn/hutool/core/lang/Singleton.java:36-40 | for one class, get-or-create with one parameter list does not change whether an entry exists for a different list (no `_` in parameters) |
| `PoolState.ClassesAfterPut` | hutool-core/src/main/java/cn/hutool/core/lang/Singleton.java:124-126 | after putting `v` under `k`, the classes are those of the other entries plus `v`'s class |
| `SingletonPool.Singleton.constructor` | hutool-core/src/main/java/cn/hutool/core/lang/Singleton.java:21 | the pool starts empty |
| `SingletonPool.Singleton.Get` | hutool-core/src/main/java/cn/hutool/core/lang/Singleton.java:54-65 | the read-check-supply-insert-reread sequence returns and stores exactly what `GetOrCreate` describes |
| `SingletonPool.Singleton.GetByClass` | hutool-core/src/main/java/cn/hutool/core/lang/Singleton.java:36-40 | a null class fails with `IllegalArgument` and changes nothing; otherwise it is get-or-create under `BuildKey(class name, params)` with the constructor as supplier |
| `SingletonPool.Singleton.GetByClassName` | hutool-core/src/main/java/cn/hutool/core/lang/Singleton.java:76-80 | a blank name fails with `IllegalArgument`; a name that does not load fails with `ClassNotFound`; both leave the pool unchanged; otherwise it is get-or-create for the loaded class |
| `SingletonPool.Singleton.PutObject` | hutool-core/src/main/java/cn/hutool/core/lang/Singleton.java:88-91 | a null object fails with `IllegalArgument` and changes nothing; otherwise it is a put under the object's runtime class name |
| `SingletonPool.Singleton.Put` | hutool-core/src/main/java/cn/hutool/core/lang/Singleton.java:100-102 | the new pool and outcome are those of `PutEntry` |
| `SingletonPool.Singleton.Exists` | hutool-core/src/main/java/cn/hutool/core/lang/Singleton.java:111-117 | false for a null class; otherwise true exactly when the key derived from the class name and parameters is in the current pool (defined once, by `ExistsIn`) |
| `SingletonPool.Singleton.GetExistClass` | hutool-core/src/main/java/cn/hutool/core/lang/Singleton.java:124-126 | exactly the runtime classes of the currently stored values (defined once, by `ClassesIn`) |
| `SingletonPool.Singleton.RemoveClass` | hutool-core/src/main/java/cn/hutool/core/lang/Singleton.java:133-137 | a no-op for a null class; otherwise removes exactly the parameterless key of the class |
| `SingletonPool.Singleton.Remove` | hutool-core/src/main/java/cn/hutool/core/lang/Singleton.java:144-146 | the new pool is `RemoveEntry` of the old one |
| `SingletonPool.Singleton.Destroy` | hutool-core/src/main/java/cn/hutool/core/lang/Singleton.java:151-153 | the pool is empty afterwards |

## Left out

- Concurrency is not modelled: the atomicity of `putIfAbsent`, racing callers that both construct, and the
  reason for not using `computeIfAbsent`. One caller at a time is modelled. With no other caller and a
  supplier that does not use the pool (next line), the re-read in `Get` finds the object just inserted.
- PoolState.GetOrCreate and SingletonPool.Singleton.Get model the supplier or constructor by its outcome
  only, and assume it does not call the pool. Nested construction is not covered: a constructor that fetches
  another singleton adds a second key, and a supplier that puts or removes entries changes the pool during
  the call. So "only `key` can be added", "returns the supplier's object" and, in
  `PoolState.UntouchedEntryPersists`, "get-or-create never changes it" hold only for such suppliers.
- Reflective construction and class loading are foreign calls. They appear only through their outcomes:
  `construct` for the constructor, and `loaded` for the loaded class's name.
- How arbitrary parameter objects are rendered as strings is not modelled; parameters are taken as strings.
  A null parameter array is treated as an empty one, as the source's emptiness check does.
- Null keys are not modelled; the backing map would throw `NullPointerException` for them. Keys are
  non-null strings.
- `SingletonPool.IsBlank` uses an explicit set of blank characters. It stands in for the library's blank
  check, whose source is not part of this model. A null class name is not modelled; it fails like a blank one.
- Java generics and the unchecked cast of the returned object are not modelled; the model returns the
  stored `Obj`.
- The texts of the assertion messages are not modelled; the failures are `IllegalArgument`.
