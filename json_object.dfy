/**
 * The object view of simplejson: a table from string keys to untyped JSON
 * values, with kind-checked getters, optional (`Opt`) getters that report
 * whether the key is present, an in-place `Set`, and key enumeration.
 *
 * A Go type assertion on the wrong kind panics; here the getters require the
 * kind they assert. The `Opt` getters only turn an ABSENT key into
 * `(zero, false)`. Those that assert a kind (string, bool, both floats, nested
 * object) still panic on a present key of another kind, so their preconditions
 * exclude that case; `OptInt`, `OptInt64` and `OptArray` assert no kind and
 * require only what their helper demands of a present value.
 *
 * Helpers the view delegates to (integer parsing, conversion of a Go value to
 * its JSON-compatible form, conversion to an array, float32 narrowing) are
 * not part of this model; each is a function-typed parameter.
 */
module SimpleJson {
  import opened JsonValue

  /**
   * The array view, as far as the object view builds it: a wrapper around the
   * sequence the array helper returns. Its own getters are not part of this model.
   */
  class JsonArray {
    const elems: seq<Value>

    constructor (elems: seq<Value>)
      ensures this.elems == elems
    {
      this.elems := elems;
    }
  }

  class JsonObject {
    /** The backing map, owned by this view. */
    var inner: map<string, Value>

    /** NewJSONObject: a view over a fresh, empty map. */
    constructor ()
      ensures inner == map[]
    {
      inner := map[];
    }

    /**
     * newJSONObjectWithMap: a view over the given map. Go shares the map with
     * the caller; the model, whose maps are values, does not capture that.
     */
    constructor WithMap(fromMap: map<string, Value>)
      ensures inner == fromMap
    {
      inner := fromMap;
    }

    /** ToMap: the backing map itself. */
    function ToMap(): (m: map<string, Value>)
      reads this
      ensures m == inner
    {
      inner
    }

    // ---------------------------------------------------------------- strings

    function String(key: string): (s: string)
      reads this
      requires key in inner && inner[key].Str?
      ensures inner[key] == Str(s)
    {
      inner[key].s
    }

    function OptString(key: string): (r: (string, bool))
      reads this
      requires key in inner ==> inner[key].Str?
      ensures r.1 <==> key in inner
      ensures r.1 ==> inner[key] == Str(r.0)
      ensures !r.1 ==> r.0 == ""
    {
      if key !in inner then ("", false) else (inner[key].s, true)
    }

    // --------------------------------------------------------------- booleans

    function Bool(key: string): (v: bool)
      reads this
      requires key in inner && inner[key].Bool?
      ensures inner[key].b == v
    {
      inner[key].b
    }

    function OptBool(key: string): (r: (bool, bool))
      reads this
      requires key in inner ==> inner[key].Bool?
      ensures r.1 <==> key in inner
      ensures r.1 ==> inner[key].b == r.0
      ensures !r.1 ==> !r.0
    {
      if key !in inner then (false, false) else (inner[key].b, true)
    }

    // ---------------------------------------------------------------- numbers

    function Float64(key: string): (x: real)
      reads this
      requires key in inner && inner[key].Num?
      ensures inner[key] == Num(x)
    {
      inner[key].x
    }

    function OptFloat64(key: string): (r: (real, bool))
      reads this
      requires key in inner ==> inner[key].Num?
      ensures r.1 <==> key in inner
      ensures r.1 ==> inner[key] == Num(r.0)
      ensures !r.1 ==> r.0 == 0.0
    {
      if key !in inner then (0.0, false) else (inner[key].x, true)
    }

    /** Float32: the stored number, asserted to be a number, then narrowed. */
    function Float32(key: string, narrow: real -> real): (x: real)
      reads this
      requires key in inner && inner[key].Num?
      ensures x == narrow(inner[key].x)
    {
      narrow(inner[key].x)
    }

    function OptFloat32(key: string, narrow: real -> real): (r: (real, bool))
      reads this
      requires key in inner ==> inner[key].Num?
      ensures r.1 <==> key in inner
      ensures r.1 ==> r.0 == narrow(inner[key].x)
      ensures !r.1 ==> r.0 == 0.0
    {
      if key !in inner then (0.0, false) else (narrow(inner[key].x), true)
    }

    /**
     * Int: the integer parser applied to whatever the map yields for `key`,
     * which is null when the key is absent. The parser decides what it accepts.
     */
    function Int(key: string, parseInt: Value --> int): (n: int)
      reads this
      requires parseInt.requires(Lookup(inner, key))
      ensures key in inner ==> n == parseInt(inner[key])
      ensures key !in inner ==> n == parseInt(Null)
    {
      parseInt(Lookup(inner, key))
    }

    function Int64(key: string, parseInt64: Value --> int64): (n: int64)
      reads this
      requires parseInt64.requires(Lookup(inner, key))
      ensures key in inner ==> n == parseInt64(inner[key])
      ensures key !in inner ==> n == parseInt64(Null)
    {
      parseInt64(Lookup(inner, key))
    }

    /**
     * OptInt: an absent key gives `(0, false)`; a key present with null gives
     * `(0, true)`, since the presence flag is returned as it is; any other
     * present value goes to the parser.
     */
    function OptInt(key: string, parseInt: Value --> int): (r: (int, bool))
      reads this
      requires key in inner && inner[key] != Null ==> parseInt.requires(inner[key])
      ensures r.1 <==> key in inner
      ensures key in inner && inner[key] == Null ==> r.0 == 0
      ensures key in inner && inner[key] != Null ==> r.0 == parseInt(inner[key])
      ensures !r.1 ==> r.0 == 0
    {
      if key !in inner || inner[key] == Null then (0, key in inner)
      else (parseInt(inner[key]), true)
    }

    function OptInt64(key: string, parseInt64: Value --> int64): (r: (int64, bool))
      reads this
      requires key in inner && inner[key] != Null ==> parseInt64.requires(inner[key])
      ensures r.1 <==> key in inner
      ensures key in inner && inner[key] == Null ==> r.0 == 0
      ensures key in inner && inner[key] != Null ==> r.0 == parseInt64(inner[key])
      ensures !r.1 ==> r.0 == 0
    {
      if key !in inner || inner[key] == Null then (0, key in inner)
      else (parseInt64(inner[key]), true)
    }

    // ----------------------------------------------------- nested object views

    /** JSONObject: a new view over the map stored at `key`. */
    method Object(key: string) returns (o: JsonObject)
      requires key in inner && inner[key].Obj?
      ensures fresh(o)
      ensures o.inner == inner[key].fields
    {
      o := new JsonObject.WithMap(inner[key].fields);
    }

    method OptObject(key: string) returns (o: JsonObject?, ok: bool)
      requires key in inner ==> inner[key].Obj?
      ensures ok <==> key in inner
      ensures ok ==> o != null && fresh(o) && o.inner == inner[key].fields
      ensures !ok ==> o == null
    {
      if key !in inner {
        return null, false;
      }
      o := new JsonObject.WithMap(inner[key].fields);
      ok := true;
    }

    // ------------------------------------------------------ nested array views

    /**
     * JSONArray: wraps whatever the array helper makes of the value the map
     * yields for `key`, null included when the key is absent.
     */
    method Array(key: string, toArray: Value --> seq<Value>) returns (a: JsonArray)
      requires toArray.requires(Lookup(inner, key))
      ensures fresh(a)
      ensures key in inner ==> a.elems == toArray(inner[key])
      ensures key !in inner ==> a.elems == toArray(Null)
    {
      a := new JsonArray(toArray(Lookup(inner, key)));
    }

    method OptArray(key: string, toArray: Value --> seq<Value>) returns (a: JsonArray?, ok: bool)
      requires key in inner ==> toArray.requires(inner[key])
      ensures ok <==> key in inner
      ensures ok ==> a != null && fresh(a) && a.elems == toArray(inner[key])
      ensures !ok ==> a == null
    {
      if key !in inner {
        return null, false;
      }
      a := new JsonArray(toArray(inner[key]));
      ok := true;
    }

    // --------------------------------------------------------------- mutation

    /**
     * Set: converts `value` to its JSON-compatible form; when that fails the
     * map is left as it was and the result is false, otherwise the converted
     * value is stored under `key` and every other entry stays as it was.
     */
    method Set<T>(key: string, value: T, toJson: T -> Option<Value>) returns (ok: bool)
      modifies this
      ensures ok <==> toJson(value).Some?
      ensures !ok ==> inner == old(inner)
      ensures ok ==> key in inner && inner[key] == toJson(value).value
      ensures ok ==> inner.Keys == old(inner).Keys + {key}
      ensures forall k :: k != key && k in old(inner) ==> k in inner && inner[k] == old(inner)[k]
    {
      var converted := toJson(value);
      if converted.None? {
        return false;
      }
      inner := inner[key := converted.value];
      ok := true;
    }

    // ------------------------------------------------------------ enumeration

    /**
     * Keys: every key of the map, each exactly once. The order is not
     * specified, as Go's map iteration order is not.
     */
    method Keys() returns (keys: seq<string>)
      ensures forall k :: k in keys <==> k in inner
      ensures Distinct(keys)
      ensures |keys| == |inner|
    {
      keys := [];
      var rest := inner.Keys;
      while rest != {}
        invariant rest <= inner.Keys
        invariant forall k :: k in keys <==> k in inner && k !in rest
        invariant Distinct(keys)
        decreases rest
      {
        var k :| k in rest;
        keys := keys + [k];
        rest := rest - {k};
      }
      DistinctCardinality(keys);
      assert (set k | k in keys) == inner.Keys;
    }
  }

  /**
   * On a present key of the kind a getter asserts, the `Opt` getter returns
   * exactly what the plain getter returns, with `true`.
   */
  lemma OptGettersAgreeWithGetters(o: JsonObject, key: string, narrow: real -> real,
                                   parseInt: Value --> int, parseInt64: Value --> int64)
    requires key in o.inner
    ensures o.inner[key].Str? ==> o.OptString(key) == (o.String(key), true)
    ensures o.inner[key].Bool? ==> o.OptBool(key) == (o.Bool(key), true)
    ensures o.inner[key].Num? ==> o.OptFloat64(key) == (o.Float64(key), true)
    ensures o.inner[key].Num? ==> o.OptFloat32(key, narrow) == (o.Float32(key, narrow), true)
    ensures o.inner[key] != Null && parseInt.requires(o.inner[key]) ==>
              o.OptInt(key, parseInt) == (o.Int(key, parseInt), true)
    ensures o.inner[key] != Null && parseInt64.requires(o.inner[key]) ==>
              o.OptInt64(key, parseInt64) == (o.Int64(key, parseInt64), true)
  {
  }

  /** On an absent key every `Opt` getter returns its zero value with `false`. */
  lemma AbsentKeyGivesZeroValues(o: JsonObject, key: string, narrow: real -> real,
                                 parseInt: Value --> int, parseInt64: Value --> int64)
    requires key !in o.inner
    ensures o.OptString(key) == ("", false)
    ensures o.OptBool(key) == (false, false)
    ensures o.OptFloat64(key) == (0.0, false)
    ensures o.OptFloat32(key, narrow) == (0.0, false)
    ensures o.OptInt(key, parseInt) == (0, false)
    ensures o.OptInt64(key, parseInt64) == (0, false)
  {
  }
}
