/**
 * The singleton pool as a value: a map from keys to stored objects, and the
 * effect of each pool operation on it. The class `Singleton` performs these
 * transitions in place.
 */
module PoolState {
  import opened Wrappers
  import opened Keys

  /** A non-null Java object: the name of its runtime class and its identity. */
  datatype Obj = Obj(cls: string, id: nat)

  /** The name of the runtime class of an object (`getClass().getName()`). */
  function ClassOf(o: Obj): string
  {
    o.cls
  }

  /** The exceptions the pool's operations can raise or pass on. */
  datatype Error =
    | IllegalArgument           // a required argument is null or blank
    | NullPointer               // the backing map refuses a null value
    | ClassNotFound(name: string)
    | Raised(cause: string)     // whatever the supplier or constructor threw

  /** What a supplier does when it is called: return a (possibly null) reference, or throw. */
  type Supplied = Result<Option<Obj>, Error>

  /** The pool's contents; the backing map never holds a null value. */
  type Pool = map<string, Obj>

  /**
   * Get-or-create: the stored object if `key` is present, otherwise the
   * supplier's object, installed under `key`.
   */
  function GetOrCreate(m: Pool, key: string, supplied: Supplied): (out: (Result<Obj, Error>, Pool))
    // an existing entry is never overwritten or removed, and only `key` can be added
    ensures forall k :: k in m ==> k in out.1 && out.1[k] == m[k]
    ensures out.1.Keys <= m.Keys + {key}
    // on success the returned object is the one stored under `key`
    ensures out.0.Success? ==> key in out.1 && out.1[key] == out.0.value
    // a failure leaves the pool as it was
    ensures out.0.Failure? ==> out.1 == m
    // a present key answers without the supplier
    ensures key in m ==> out.0 == Success(m[key])
    // an absent key answers with the supplier's object or its exception
    ensures key !in m && supplied.Failure? ==> out.0 == Failure(supplied.error)
    ensures key !in m && supplied == Success(None) ==> out.0 == Failure(NullPointer)
    ensures key !in m && supplied.Success? && supplied.value.Some? ==> out.0 == Success(supplied.value.value)
  {
    if key in m then (Success(m[key]), m)
    else
      match supplied
      case Failure(e) => (Failure(e), m)
      case Success(None) => (Failure(NullPointer), m)
      case Success(Some(v)) => (Success(v), m[key := v])
  }

  /** Unconditional put: `key` maps to `obj` afterwards; a null `obj` is refused. */
  function PutEntry(m: Pool, key: string, obj: Option<Obj>): (out: (Outcome<Error>, Pool))
    ensures obj.None? ==> out == (Fail(NullPointer), m)
    ensures obj.Some? ==> out.0 == Pass && key in out.1 && out.1[key] == obj.value
    ensures obj.Some? ==> out.1.Keys == m.Keys + {key}
    ensures forall k :: k in m && k != key ==> k in out.1 && out.1[k] == m[k]
  {
    match obj
    case None => (Fail(NullPointer), m)
    case Some(v) => (Pass, m[key := v])
  }

  /** Removal of one key; a no-op when the key is absent. */
  function RemoveEntry(m: Pool, key: string): (m': Pool)
    ensures m'.Keys == m.Keys - {key}
    ensures forall k :: k in m' ==> m'[k] == m[k]
    ensures key !in m ==> m' == m
  {
    m - {key}
  }

  /** Whether an object of the class (`None` for a null class) built with these parameters is pooled. */
  function ExistsIn(m: Pool, clazz: Option<string>, params: seq<string>): (b: bool)
    ensures clazz.None? ==> !b
    ensures clazz.Some? ==> (b <==> BuildKey(clazz.value, params) in m)
  {
    match clazz
    case None => false
    case Some(c) => BuildKey(c, params) in m
  }

  /** The distinct runtime classes of the stored objects (of the values, not of the keys). */
  function ClassesIn(m: Pool): (classes: set<string>)
    ensures forall v :: v in m.Values ==> ClassOf(v) in classes
    ensures forall c :: c in classes ==> exists v :: v in m.Values && ClassOf(v) == c
  {
    set v | v in m.Values :: ClassOf(v)
  }

  // ---------------------------------------------------------------------------
  // Sequences of operations

  /** One call into the pool, with what its supplier or argument does. */
  datatype Call =
    | GetCall(key: string, supplied: Supplied)
    | PutCall(key: string, obj: Option<Obj>)
    | RemoveCall(key: string)
    | DestroyCall

  /** The pool after one call. */
  function Step(m: Pool, call: Call): Pool
  {
    match call
    case GetCall(key, supplied) => GetOrCreate(m, key, supplied).1
    case PutCall(key, obj) => PutEntry(m, key, obj).1
    case RemoveCall(key) => RemoveEntry(m, key)
    case DestroyCall => map[]
  }

  /** The pool after the calls, made one after the other. */
  function Run(m: Pool, calls: seq<Call>): Pool
    decreases |calls|
  {
    if calls == [] then m else Run(Step(m, calls[0]), calls[1..])
  }

  /** Whether a call can change or delete the entry under `k`: only a put or remove naming it, or destroy. */
  predicate Touches(call: Call, k: string)
  {
    match call
    case GetCall(_, _) => false
    case PutCall(key, _) => key == k
    case RemoveCall(key) => key == k
    case DestroyCall => true
  }

  /** An entry survives, unchanged, every run of calls that do not touch it; get-or-create never does. */
  lemma {:induction false} UntouchedEntryPersists(m: Pool, calls: seq<Call>, k: string)
    requires k in m
    requires forall i :: 0 <= i < |calls| ==> !Touches(calls[i], k)
    ensures k in Run(m, calls) && Run(m, calls)[k] == m[k]
    decreases |calls|
  {
    if calls != [] {
      var m' := Step(m, calls[0]);
      assert !Touches(calls[0], k);
      assert k in m' && m'[k] == m[k];
      UntouchedEntryPersists(m', calls[1..], k);
    }
  }

  /**
   * The singleton promise: once get-or-create has returned an object for `key`,
   * any later get-or-create for `key` returns that same object, whatever its
   * supplier, as long as no call in between puts, removes or destroys `key`.
   */
  lemma SameObjectUntilTouched(m: Pool, key: string, s1: Supplied, calls: seq<Call>, s2: Supplied)
    requires GetOrCreate(m, key, s1).0.Success?
    requires forall i :: 0 <= i < |calls| ==> !Touches(calls[i], key)
    ensures GetOrCreate(Run(GetOrCreate(m, key, s1).1, calls), key, s2).0 == GetOrCreate(m, key, s1).0
  {
    UntouchedEntryPersists(GetOrCreate(m, key, s1).1, calls, key);
  }

  /** Two get-or-create calls in a row return the same object; the second supplier is not used. */
  lemma GetTwice(m: Pool, key: string, s1: Supplied, s2: Supplied)
    requires GetOrCreate(m, key, s1).0.Success?
    ensures GetOrCreate(GetOrCreate(m, key, s1).1, key, s2) == GetOrCreate(m, key, s1)
  {
  }

  /** `put(k, v1); put(k, v2); get(k, _)` returns `v2` without using the supplier. */
  lemma PutPutGet(m: Pool, key: string, v1: Obj, v2: Obj, s: Supplied)
    ensures GetOrCreate(PutEntry(PutEntry(m, key, Some(v1)).1, key, Some(v2)).1, key, s).0 == Success(v2)
  {
  }

  /** After `remove(k)` the next get-or-create for `k` uses its supplier again. */
  lemma RemoveThenGet(m: Pool, key: string, v: Obj)
    ensures GetOrCreate(RemoveEntry(m, key), key, Success(Some(v))) == (Success(v), RemoveEntry(m, key)[key := v])
  {
  }

  /** After a successful get-or-create by class and parameters, `exists` reports that entry. */
  lemma ExistsAfterGet(m: Pool, c: string, params: seq<string>, s: Supplied)
    requires GetOrCreate(m, BuildKey(c, params), s).0.Success?
    ensures ExistsIn(GetOrCreate(m, BuildKey(c, params), s).1, Some(c), params)
  {
  }

  /** After `destroy()` nothing exists. */
  lemma NothingExistsAfterDestroy(m: Pool, clazz: Option<string>, params: seq<string>)
    ensures !ExistsIn(Step(m, DestroyCall), clazz, params)
    ensures ClassesIn(Step(m, DestroyCall)) == {}
  {
  }

  /** Removing a class's parameterless entry leaves its parameterised entries in place. */
  lemma RemoveClassKeepsParameterised(m: Pool, c: string, params: seq<string>)
    requires |params| > 0 && BuildKey(c, params) in m
    ensures ExistsIn(RemoveEntry(m, c), Some(c), params)
    ensures !ExistsIn(RemoveEntry(m, c), Some(c), [])
  {
  }

  /**
   * Objects of one class built with parameter lists that differ (and contain no `_`)
   * occupy different entries: installing one does not make the other exist.
   */
  lemma DistinctParamsDistinctEntries(m: Pool, c: string, ps1: seq<string>, ps2: seq<string>, s: Supplied)
    requires PlainClassName(c) && PlainParams(ps1) && PlainParams(ps2) && ps1 != ps2
    ensures ExistsIn(GetOrCreate(m, BuildKey(c, ps1), s).1, Some(c), ps2) == ExistsIn(m, Some(c), ps2)
  {
    if BuildKey(c, ps1) == BuildKey(c, ps2) {
      BuildKeyInjective(c, ps1, c, ps2);
    }
  }

  /** Putting `v` under `k` makes the classes those of the other entries plus `v`'s class. */
  lemma ClassesAfterPut(m: Pool, k: string, v: Obj)
    ensures ClassesIn(m[k := v]) == ClassesIn(m - {k}) + {ClassOf(v)}
  {
    var m' := m[k := v];
    assert m'.Values == (m - {k}).Values + {v} by {
      forall w | w in m'.Values ensures w in (m - {k}).Values + {v} {
        var j :| j in m' && m'[j] == w;
        if j != k { assert j in (m - {k}) && (m - {k})[j] == w; }
      }
      forall w | w in (m - {k}).Values ensures w in m'.Values {
        var j :| j in (m - {k}) && (m - {k})[j] == w;
        assert j in m';
      }
      assert k in m' && m'[k] == v;
    }
  }
}
