/**
 * The process-wide singleton pool, as one object whose `pool` field the
 * operations update in place. Classes are represented by their names
 * (`Class.getName()`), a null class or reference by `None`.
 */
module SingletonPool {
  import opened Wrappers
  import opened Keys
  import opened PoolState

  /**
   * Characters the blank check treats as blank: the Java whitespace and space
   * separators, and the invisible characters the check adds to them.
   */
  const BlankChars: set<char> := {
    ' ', '\t', '\n', '\U{000B}', '\U{000C}', '\r',
    '\U{001C}', '\U{001D}', '\U{001E}', '\U{001F}',
    '\U{00A0}', '\U{1680}', '\U{2000}', '\U{2001}', '\U{2002}', '\U{2003}',
    '\U{2004}', '\U{2005}', '\U{2006}', '\U{2007}', '\U{2008}', '\U{2009}',
    '\U{200A}', '\U{2028}', '\U{2029}', '\U{202F}', '\U{205F}', '\U{3000}',
    '\U{FEFF}', '\U{202A}', '\U{0000}', '\U{3164}', '\U{2800}', '\U{180E}'
  }

  /** A class name is blank when it is empty or made only of blank characters. */
  predicate IsBlank(s: string)
  {
    forall i :: 0 <= i < |s| ==> s[i] in BlankChars
  }

  class Singleton {
    /** The keyed objects; no key maps to null. */
    var pool: Pool

    constructor ()
      ensures pool == map[]
    {
      pool := map[];
    }

    /**
     * Get-or-create under a custom key: read the key; only when it is absent
     * call the supplier, insert its object if the key is still absent, and
     * read the key again.
     */
    method Get(key: string, supplier: Supplied) returns (r: Result<Obj, Error>)
      modifies this
      ensures (r, pool) == GetOrCreate(old(pool), key, supplier)
    {
      var value: Option<Obj> := if key in pool then Some(pool[key]) else None;
      if value.None? {
        var made: Obj;
        match supplier {
          case Failure(e) =>
            return Failure(e);
          case Success(None) =>
            // the backing map refuses a null value
            return Failure(NullPointer);
          case Success(Some(v)) =>
            made := v;
        }
        if key !in pool {
          pool := pool[key := made];
        }
        value := if key in pool then Some(pool[key]) else None;
      }
      r := Success(value.value);
    }

    /**
     * Get-or-create for a class and its construction parameters; `construct`
     * is what constructing the class with those parameters does.
     */
    method GetByClass(clazz: Option<string>, params: seq<string>, construct: Supplied)
      returns (r: Result<Obj, Error>)
      modifies this
      ensures clazz.None? ==> r == Failure(IllegalArgument) && pool == old(pool)
      ensures clazz.Some? ==> (r, pool) == GetOrCreate(old(pool), BuildKey(clazz.value, params), construct)
    {
      if clazz.None? {
        return Failure(IllegalArgument);
      }
      var key := BuildKey(clazz.value, params);
      r := Get(key, construct);
    }

    /**
     * Get-or-create for a class given by name; `loaded` is the name of the class
     * the name loads, or `None` when loading fails.
     */
    method GetByClassName(className: string, params: seq<string>, loaded: Option<string>, construct: Supplied)
      returns (r: Result<Obj, Error>)
      modifies this
      ensures IsBlank(className) ==> r == Failure(IllegalArgument) && pool == old(pool)
      ensures !IsBlank(className) && loaded.None? ==> r == Failure(ClassNotFound(className)) && pool == old(pool)
      ensures !IsBlank(className) && loaded.Some? ==>
                (r, pool) == GetOrCreate(old(pool), BuildKey(loaded.value, params), construct)
    {
      if IsBlank(className) {
        return Failure(IllegalArgument);
      }
      if loaded.None? {
        return Failure(ClassNotFound(className));
      }
      r := GetByClass(loaded, params, construct);
    }

    /** Puts an object under the name of its runtime class; a null object is refused. */
    method PutObject(obj: Option<Obj>) returns (o: Outcome<Error>)
      modifies this
      ensures obj.None? ==> o == Fail(IllegalArgument) && pool == old(pool)
      ensures obj.Some? ==> (o, pool) == PutEntry(old(pool), ClassOf(obj.value), obj)
    {
      if obj.None? {
        return Fail(IllegalArgument);
      }
      o := Put(ClassOf(obj.value), obj);
    }

    /** Puts an object under a key, replacing any object stored there. */
    method Put(key: string, obj: Option<Obj>) returns (o: Outcome<Error>)
      modifies this
      ensures (o, pool) == PutEntry(old(pool), key, obj)
    {
      if obj.None? {
        return Fail(NullPointer);
      }
      pool := pool[key := obj.value];
      o := Pass;
    }

    /** Whether an object for the class and parameters is pooled; false for a null class. */
    function Exists(clazz: Option<string>, params: seq<string>): (b: bool)
      reads this
      ensures clazz.None? ==> !b
      ensures clazz.Some? ==> (b <==> BuildKey(clazz.value, params) in pool)
    {
      ExistsIn(pool, clazz, params)
    }

    /** The distinct runtime classes of the pooled objects. */
    function GetExistClass(): (classes: set<string>)
      reads this
      ensures forall v :: v in pool.Values ==> ClassOf(v) in classes
      ensures forall c :: c in classes ==> exists v :: v in pool.Values && ClassOf(v) == c
    {
      ClassesIn(pool)
    }

    /** Removes the parameterless entry of a class; a no-op for a null class. */
    method RemoveClass(clazz: Option<string>)
      modifies this
      ensures clazz.None? ==> pool == old(pool)
      ensures clazz.Some? ==> pool == RemoveEntry(old(pool), BuildKey(clazz.value, []))
    {
      if clazz.Some? {
        Remove(clazz.value);
      }
    }

    /** Removes the entry under `key`, if any. */
    method Remove(key: string)
      modifies this
      ensures pool == RemoveEntry(old(pool), key)
    {
      pool := pool - {key};
    }

    /** Empties the pool. */
    method Destroy()
      modifies this
      ensures pool == Step(old(pool), DestroyCall)
      ensures forall key :: key !in pool
    {
      pool := map[];
    }
  }
}
