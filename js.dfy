/**
 * JavaScript values as the three core files see them.
 *
 * A plain object is an ordered list of own properties, because property
 * order is observable (it is the order in which `JSON.stringify` emits
 * keys). Reading a property that is not there gives `undefined`, and
 * assigning to a property replaces it in place or appends it at the end.
 * That is JavaScript's order for string keys that are not array indices
 * ("0", "1", ... are listed first, in numeric order); only such keys
 * occur in this model.
 * Numbers are integers here; see README "## Left out".
 */
module Js {

  datatype Value =
    | Undefined
    | Null
    | Bool(b: bool)
    | Num(n: int)
    | Str(s: string)
    | Arr(items: seq<Value>)
    | Obj(props: seq<Prop>)

  datatype Prop = Prop(key: string, val: Value)

  /** The shape of a thrown `Error`: its message, its stack and its other own properties. */
  datatype ErrorObject = ErrorObject(message: string, stack: Value, props: seq<Prop>) {
    /** `err.status`: a duck-typed property that only some errors carry. */
    function Status(): Value {
      Get(props, "status")
    }
  }

  /** The keys of an object, in property order. */
  function Keys(props: seq<Prop>): (ks: seq<string>)
    ensures |ks| == |props|
    ensures forall i :: 0 <= i < |props| ==> ks[i] == props[i].key
  {
    if props == [] then [] else [props[0].key] + Keys(props[1..])
  }

  /** `key in obj` for an own property. */
  predicate Has(props: seq<Prop>, key: string) {
    key in Keys(props)
  }

  /** `obj[key]`: the value of the first property named `key`, or `undefined`. */
  function Get(props: seq<Prop>, key: string): Value {
    if props == [] then Undefined
    else if props[0].key == key then props[0].val
    else Get(props[1..], key)
  }

  /**
   * `obj[key] = v` for a key that is not an array index: overwrite an
   * existing property where it stands, else append one.
   */
  function Put(props: seq<Prop>, key: string, v: Value): seq<Prop> {
    if props == [] then [Prop(key, v)]
    else if props[0].key == key then [Prop(key, v)] + props[1..]
    else [props[0]] + Put(props[1..], key, v)
  }

  /** No key occurs twice, as in every object a JavaScript engine builds. */
  predicate DistinctKeys(props: seq<Prop>) {
    forall i, j :: 0 <= i < j < |props| ==> props[i].key != props[j].key
  }

  /** JavaScript truthiness: `undefined`, `null`, `false`, `0` and `""` are falsy. */
  predicate Truthy(v: Value) {
    match v
    case Undefined => false
    case Null => false
    case Bool(b) => b
    case Num(n) => n != 0
    case Str(s) => s != ""
    case Arr(_) => true
    case Obj(_) => true
  }

  /** `a || b`. */
  function Or(a: Value, b: Value): Value {
    if Truthy(a) then a else b
  }

  lemma {:induction false} GetAbsent(props: seq<Prop>, key: string)
    requires !Has(props, key)
    ensures Get(props, key) == Undefined
  {
    if props != [] {
      assert Keys(props)[0] == props[0].key;
      assert Keys(props) == [props[0].key] + Keys(props[1..]);
      GetAbsent(props[1..], key);
    }
  }

  lemma {:induction false} GetAt(props: seq<Prop>, i: nat)
    requires DistinctKeys(props)
    requires i < |props|
    ensures Get(props, props[i].key) == props[i].val
  {
    if i > 0 {
      assert props[0].key != props[i].key;
      assert props[1..][i - 1] == props[i];
      GetAt(props[1..], i - 1);
    }
  }

  lemma {:induction false} PutKeys(props: seq<Prop>, key: string, v: Value)
    ensures Keys(Put(props, key, v)) == if Has(props, key) then Keys(props) else Keys(props) + [key]
  {
    if props != [] {
      assert Keys(props) == [props[0].key] + Keys(props[1..]);
      if props[0].key != key {
        PutKeys(props[1..], key, v);
        assert Keys(Put(props, key, v)) == [props[0].key] + Keys(Put(props[1..], key, v));
        assert Has(props, key) == Has(props[1..], key);
      }
    }
  }

  lemma {:induction false} PutGet(props: seq<Prop>, key: string, v: Value, other: string)
    ensures Get(Put(props, key, v), other) == if other == key then v else Get(props, other)
  {
    if props != [] && props[0].key != key {
      PutGet(props[1..], key, v, other);
    }
  }

  lemma {:induction false} PutDistinct(props: seq<Prop>, key: string, v: Value)
    requires DistinctKeys(props)
    ensures DistinctKeys(Put(props, key, v))
  {
    PutKeys(props, key, v);
    var r := Put(props, key, v);
    var ks := Keys(r);
    forall i, j | 0 <= i < j < |r| ensures r[i].key != r[j].key {
      assert ks[i] == r[i].key && ks[j] == r[j].key;
      if !Has(props, key) && j == |props| {
        assert ks[i] == Keys(props)[i];
      } else {
        assert ks[i] == Keys(props)[i] && ks[j] == Keys(props)[j];
      }
    }
  }

  lemma {:induction false} PutAppends(props: seq<Prop>, key: string, v: Value)
    requires !Has(props, key)
    ensures Put(props, key, v) == props + [Prop(key, v)]
  {
    if props != [] {
      assert Keys(props) == [props[0].key] + Keys(props[1..]);
      PutAppends(props[1..], key, v);
      assert props == [props[0]] + props[1..];
    }
  }
}
