/**
 * The JSON values a persisted store document can hold after being read back
 * from storage, with the JavaScript notions the migration relies on:
 * truthiness, property lookup, `Array.isArray` and object spread.
 * Numbers are integers only.
 */
module Json {

  import opened Wrappers
  import Strings

  datatype Json =
    | JNull
    | JBool(b: bool)
    | JNum(n: int)
    | JStr(s: string)
    | JArr(items: seq<Json>)
    | JObj(fields: map<string, Json>)

  /** `!v` is false: everything but null, false, 0 and the empty string. */
  predicate Truthy(v: Json) {
    match v
    case JNull => false
    case JBool(b) => b
    case JNum(n) => n != 0
    case JStr(s) => s != ""
    case _ => true
  }

  /** `typeof v === "object"`: objects, arrays and null. */
  predicate TypeofObject(v: Json) {
    v.JNull? || v.JArr? || v.JObj?
  }

  /**
   * `v[key]`: the own property `key` of an object. Arrays, strings and the
   * other primitives have no property with a non-numeric name the store uses,
   * so the lookup gives `undefined` (None).
   */
  function Get(v: Json, key: string): (r: Option<Json>)
    ensures r.Some? <==> v.JObj? && key in v.fields
  {
    if v.JObj? && key in v.fields then Some(v.fields[key]) else None
  }

  /** `Array.isArray(v[key])`. */
  predicate IsArrayAt(v: Json, key: string) {
    Get(v, key).Some? && Get(v, key).value.JArr?
  }

  /**
   * The own enumerable properties copied by `{...v}`: an object's fields,
   * an array's elements and a string's characters under their decimal index,
   * and nothing for the other primitives.
   */
  function Spread(v: Json): (m: map<string, Json>)
    ensures v.JObj? ==> m == v.fields
    ensures v.JArr? ==> forall i :: 0 <= i < |v.items| ==>
                          Strings.NatToString(i) in m && m[Strings.NatToString(i)] == v.items[i]
    ensures v.JArr? ==> m.Keys == set i | 0 <= i < |v.items| :: Strings.NatToString(i)
    ensures v.JStr? ==> forall i :: 0 <= i < |v.s| ==>
                          Strings.NatToString(i) in m && m[Strings.NatToString(i)] == JStr([v.s[i]])
    ensures v.JStr? ==> m.Keys == set i | 0 <= i < |v.s| :: Strings.NatToString(i)
    ensures !(v.JObj? || v.JArr? || v.JStr?) ==> m == map[]
  {
    match v
    case JObj(fields) => fields
    case JArr(items) => IndexMap(items)
    case JStr(s) => IndexMap(seq(|s|, i requires 0 <= i < |s| => JStr([s[i]])))
    case _ => map[]
  }

  function IndexMap(items: seq<Json>): (m: map<string, Json>)
    ensures forall i :: 0 <= i < |items| ==>
              Strings.NatToString(i) in m && m[Strings.NatToString(i)] == items[i]
    ensures m.Keys == set i | 0 <= i < |items| :: Strings.NatToString(i)
  {
    if items == [] then map[]
    else
      var last := |items| - 1;
      var m := IndexMap(items[..last])[Strings.NatToString(last) := items[last]];
      IndexKeysSnoc(last);
      assert forall i :: 0 <= i < last ==> Strings.NatToString(i) != Strings.NatToString(last) by {
        forall i | 0 <= i < last ensures Strings.NatToString(i) != Strings.NatToString(last) {
          if Strings.NatToString(i) == Strings.NatToString(last) {
            Strings.NatToStringInjective(i, last);
          }
        }
      }
      m
  }

  /** The decimal index keys of `n + 1` items are those of `n` items and `n`. */
  lemma IndexKeysSnoc(n: nat)
    ensures (set i | 0 <= i < n + 1 :: Strings.NatToString(i)) ==
            (set i | 0 <= i < n :: Strings.NatToString(i)) + {Strings.NatToString(n)}
  {
    var big := set i | 0 <= i < n + 1 :: Strings.NatToString(i);
    var small := set i | 0 <= i < n :: Strings.NatToString(i);
    forall t | t in big ensures t in small + {Strings.NatToString(n)} {
      var i :| 0 <= i < n + 1 && t == Strings.NatToString(i);
      if i < n {
        assert t in small;
      }
    }
  }
}
