/**
 The slice of PHP's value model that the typography block support touches:
 scalars and string-keyed arrays, PHP truthiness (`empty()`), the platform's
 nested-array lookup `_wp_array_get` and `isset` on a nested key path.
 */
module PhpValues {

  datatype Option<T> = None | Some(value: T)

  /** A PHP value as it appears in block attributes and `supports` arrays. */
  datatype Value =
    | Null
    | Bool(b: bool)
    | Int(i: int)
    | Str(s: string)
    | Arr(entries: map<string, Value>)

  /** PHP truthiness; `empty($v)` is `!Truthy(v)`. */
  predicate Truthy(v: Value) {
    match v
    case Null => false
    case Bool(b) => b
    case Int(i) => i != 0
    case Str(s) => s != "" && s != "0"
    case Arr(m) => m != map[]
  }

  /** Follows `path` through nested arrays; `default` as soon as a step is missing. */
  function Walk(v: Value, path: seq<string>, default: Value): (r: Value)
    decreases |path|
  {
    if path == [] then v
    else if v.Arr? && path[0] in v.entries then Walk(v.entries[path[0]], path[1..], default)
    else default
  }

  /**
   `_wp_array_get( $array, $path, $default )`: the value at `path` inside
   `array`, or `default` when the path is empty or leaves the nested arrays.
   A key that is present with a null value yields null, not `default`
   (the platform tests keys with `array_key_exists`).
   */
  function ArrayGet(v: Value, path: seq<string>, default: Value): (r: Value)
  {
    if path == [] then default else Walk(v, path, default)
  }

  /** `empty()` is false exactly for null, `false`, `0`, `""`, `"0"` and the empty array. */
  lemma FalsyValues(v: Value)
    ensures !Truthy(v) <==> v in {Null, Bool(false), Int(0), Str(""), Str("0"), Arr(map[])}
  {
  }

  /** `_wp_array_get` follows the first key into the array holding it and looks up the rest there. */
  lemma ArrayGetStep(v: Value, k: string, rest: seq<string>, default: Value)
    ensures ArrayGet(v, [k] + rest, default)
         == if !(v.Arr? && k in v.entries) then default
            else if rest == [] then v.entries[k]
            else ArrayGet(v.entries[k], rest, default)
  {
    assert ([k] + rest)[0] == k;
    assert ([k] + rest)[1..] == rest;
    if v.Arr? && k in v.entries && rest == [] {
      assert Walk(v.entries[k], [], default) == v.entries[k];
    }
  }

  /** `isset( $array[k1][k2]... )`: the path exists and its value is not null. */
  predicate IsSet(v: Value, path: seq<string>) {
    ArrayGet(v, path, Null) != Null
  }

  /** One step of `_wp_array_get` on an array: the entry if its key exists. */
  lemma ArrayGetOneKey(m: map<string, Value>, k: string, default: Value)
    ensures ArrayGet(Arr(m), [k], default) == if k in m then m[k] else default
  {
    assert [k][1..] == [];
    if k in m {
      assert Walk(m[k], [], default) == m[k];
    }
  }

  /** One step of a lookup whose default is null: `$v[k]` if `v` is an array holding `k`, else null. */
  function Get(v: Value, k: string): (r: Value)
    ensures r == ArrayGet(v, [k], Null)
  {
    assert [k][1..] == [];
    if v.Arr? && k in v.entries then
      assert Walk(v.entries[k], [], Null) == v.entries[k];
      v.entries[k]
    else
      Null
  }

  /** A three-key `_wp_array_get` with default null is three one-step lookups. */
  lemma ArrayGetThreeKeys(v: Value, k1: string, k2: string, k3: string)
    ensures ArrayGet(v, [k1, k2, k3], Null) == Get(Get(Get(v, k1), k2), k3)
  {
    assert [k1, k2, k3][1..] == [k2, k3];
    assert [k2, k3][1..] == [k3];
    assert [k3][1..] == [];
    if v.Arr? && k1 in v.entries {
      var v1 := v.entries[k1];
      assert Walk(v, [k1, k2, k3], Null) == Walk(v1, [k2, k3], Null);
      if v1.Arr? && k2 in v1.entries {
        var v2 := v1.entries[k2];
        assert Walk(v1, [k2, k3], Null) == Walk(v2, [k3], Null);
        if v2.Arr? && k3 in v2.entries {
          assert Walk(v2, [k3], Null) == Walk(v2.entries[k3], [], Null);
        }
      }
    }
  }

  /** `isset( $a[k1][k2][k3] )` holds exactly when each step finds an array holding the next key and the last value is not null. */
  lemma IsSetThreeKeys(v: Value, k1: string, k2: string, k3: string)
    ensures IsSet(v, [k1, k2, k3]) <==>
      && v.Arr? && k1 in v.entries
      && v.entries[k1].Arr? && k2 in v.entries[k1].entries
      && v.entries[k1].entries[k2].Arr? && k3 in v.entries[k1].entries[k2].entries
      && v.entries[k1].entries[k2].entries[k3] != Null
  {
    ArrayGetThreeKeys(v, k1, k2, k3);
  }
}
