/**
 * `utils.py`: walking a nested mapping along a key path, and the
 * per-instance `memoize` cache.
 */
module Utils {
  import opened Json

  // ---------------------------------------------------------------------------
  // access_nested_map

  /**
   * What `access_nested_map(m, path)` returns or raises: each key is looked up
   * in the current value, which must be a dict holding that key.
   * Whatever fails, the key raised is one of the keys of the path.
   */
  function Walk(m: Json, path: seq<string>): (r: Result<Json>)
    ensures r.Err? ==> r.error.KeyError? && r.error.key in path
    decreases |path|
  {
    if path == [] then Ok(m)
    else if !m.JObject? || path[0] !in m.fields then Err(KeyError(path[0]))
    else
      var r := Walk(m.fields[path[0]], path[1..]);
      assert r.Err? ==> r.error.key in path[1..];
      r
  }

  /** The loop of `access_nested_map`, rebinding the current value key by key. */
  method AccessNestedMap(nestedMap: Json, path: seq<string>) returns (r: Result<Json>)
    ensures r == Walk(nestedMap, path)
  {
    var current := nestedMap;
    var i := 0;
    while i < |path|
      invariant 0 <= i <= |path|
      invariant Walk(nestedMap, path) == Walk(current, path[i..])
    {
      var key := path[i];
      assert path[i..][1..] == path[i + 1..];
      if !current.JObject? {
        return Err(KeyError(key));
      }
      if key !in current.fields {
        return Err(KeyError(key));
      }
      current := current.fields[key];
      i := i + 1;
    }
    assert path[i..] == [];
    return Ok(current);
  }

  /** The empty path returns the mapping itself, whatever it is. */
  lemma WalkEmpty(m: Json)
    ensures Walk(m, []) == Ok(m)
  {
  }

  /** One step: a mapping holding `k` hands the rest of the path to `m[k]`. */
  lemma WalkStep(m: Json, k: string, rest: seq<string>)
    requires m.JObject? && k in m.fields
    ensures Walk(m, [k] + rest) == Walk(m.fields[k], rest)
  {
    assert ([k] + rest)[1..] == rest;
  }

  /** A value that is not a mapping raises `KeyError` with the key about to be looked up. */
  lemma WalkNotMapping(m: Json, k: string, rest: seq<string>)
    requires !m.JObject?
    ensures Walk(m, [k] + rest) == Err(KeyError(k))
  {
  }

  /** A mapping lacking the key raises `KeyError` with that key. */
  lemma WalkMissingKey(m: Json, k: string, rest: seq<string>)
    requires m.JObject? && k !in m.fields
    ensures Walk(m, [k] + rest) == Err(KeyError(k))
  {
  }

  /**
   * Composition: walking `p1 + p2` is walking `p1` and then `p2` from where
   * it ended; a failure along `p1` is the failure of the whole walk.
   */
  lemma {:induction false} WalkAppend(m: Json, p1: seq<string>, p2: seq<string>)
    ensures Walk(m, p1 + p2) == match Walk(m, p1)
                               case Ok(v) => Walk(v, p2)
                               case Err(e) => Err(e)
    decreases |p1|
  {
    if p1 == [] {
      assert p1 + p2 == p2;
    } else {
      assert (p1 + p2)[0] == p1[0];
      assert (p1 + p2)[1..] == p1[1..] + p2;
      if m.JObject? && p1[0] in m.fields {
        WalkAppend(m.fields[p1[0]], p1[1..], p2);
      }
    }
  }

  /**
   * Where a walk fails: when `Walk(m, path)` raises, there is a position `i`
   * such that the prefix before it succeeds, the value reached there is not
   * a mapping or lacks `path[i]`, and `path[i]` is the key raised.
   */
  lemma {:induction false} WalkFailsAt(m: Json, path: seq<string>) returns (i: nat)
    requires Walk(m, path).Err?
    ensures i < |path|
    ensures Walk(m, path[..i]).Ok?
    ensures var v := Walk(m, path[..i]).value; !v.JObject? || path[i] !in v.fields
    ensures Walk(m, path).error == KeyError(path[i])
    decreases |path|
  {
    assert path != [];
    if !m.JObject? || path[0] !in m.fields {
      i := 0;
      assert path[..0] == [];
    } else {
      var j := WalkFailsAt(m.fields[path[0]], path[1..]);
      i := j + 1;
      assert path[..i] == [path[0]] + path[1..][..j];
      WalkStep(m, path[0], path[1..][..j]);
    }
  }

  // ---------------------------------------------------------------------------
  // memoize

  /** The attribute a memoized method's value is stored under: `"_" + name`. */
  function AttrName(methodName: string): string {
    "_" + methodName
  }

  /** Two differently named memoized methods never share a cache slot. */
  lemma AttrNamesDistinct(a: string, b: string)
    requires a != b
    ensures AttrName(a) != AttrName(b)
  {
    assert AttrName(a)[1..] == a && AttrName(b)[1..] == b;
  }

  /**
   * A Python object whose class has `@memoize`d properties. `attrs` is the
   * part of its attribute dictionary the cache uses; `runs` counts, per
   * method name, how many times the wrapped method has run on this object.
   */
  class Instance<T> {
    var attrs: map<string, T>
    ghost var runs: multiset<string>

    constructor ()
      ensures attrs == map[] && runs == multiset{}
    {
      attrs := map[];
      runs := multiset{};
    }

    /**
     * Reading the memoized property `methodName`, whose wrapped method would
     * return or raise `wrapped()` on this object. Without a stored value the
     * method runs once: a value is stored under `"_" + methodName` and
     * returned; an exception propagates and nothing is stored, so the next
     * read runs the method again. With a stored value, that value is returned
     * and nothing runs.
     */
    method Memoized(methodName: string, wrapped: () -> Result<T>) returns (v: Result<T>)
      modifies this
      ensures v.Ok? ==> AttrName(methodName) in attrs && attrs[AttrName(methodName)] == v.value
      ensures AttrName(methodName) in old(attrs) ==>
                v == Ok(old(attrs)[AttrName(methodName)]) && attrs == old(attrs) && runs == old(runs)
      ensures AttrName(methodName) !in old(attrs) ==>
                v == wrapped() && runs == old(runs) + multiset{methodName} &&
                attrs == (if v.Ok? then old(attrs)[AttrName(methodName) := v.value] else old(attrs))
    {
      var attrName := AttrName(methodName);
      if attrName !in attrs {
        var result := wrapped();
        runs := runs + multiset{methodName};
        if result.Err? {
          return result;
        }
        attrs := attrs[attrName := result.value];
      }
      v := Ok(attrs[attrName]);
    }
  }

  /**
   * Two reads of the same memoized property on a fresh object. When the
   * first run returns, both reads give its value and the method runs exactly
   * once, even if it would return something else by the second read. When
   * the first run raises, nothing is cached: the second read runs the method
   * again and gives whatever that run gives.
   */
  method ReadTwice<T>(methodName: string, first: () -> Result<T>, later: () -> Result<T>)
    returns (v1: Result<T>, v2: Result<T>, ghost runs: nat)
    ensures v1 == first()
    ensures first().Ok? ==> v2 == v1 && runs == 1
    ensures first().Err? ==> v2 == later() && runs == 2
  {
    var obj := new Instance<T>();
    v1 := obj.Memoized(methodName, first);
    v2 := obj.Memoized(methodName, later);
    runs := obj.runs[methodName];
  }

  /**
   * The cache lives on each object: after `a` has cached a value, a
   * different object `b` still runs its own method, and `a` keeps its value.
   */
  method SeparateInstances<T>(methodName: string, onA: () -> T, onB: () -> T)
    returns (a1: Result<T>, b1: Result<T>, a2: Result<T>)
    ensures a1 == Ok(onA()) && b1 == Ok(onB()) && a2 == Ok(onA())
  {
    var a := new Instance<T>();
    var b := new Instance<T>();
    a1 := a.Memoized(methodName, () => Ok(onA()));
    b1 := b.Memoized(methodName, () => Ok(onB()));
    a2 := a.Memoized(methodName, () => Ok(onB()));
  }
}
