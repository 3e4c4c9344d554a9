/** The Python objects that flow through the configuration layer: user
    configs, deployment definitions, constructor arguments, actor options and
    placement bundles. Dicts keep Python's insertion order, because the
    validators report the FIRST offending key in iteration order. */
module Values {
  import opened Wrappers

  type Byte = b: int | 0 <= b < 256
  type Bytes = seq<Byte>

  datatype Value =
    | VNone
    | VBool(b: bool)
    | VInt(i: int)
    | VFloat(x: real)
    | VStr(s: string)
    | VBytes(bytes: Bytes)
    | VList(elems: seq<Value>)
    | VTuple(elems: seq<Value>)
    | VDict(entries: seq<(Value, Value)>)
      /** A plain function: `inspect.isfunction` holds of it. */
    | VFunction(name: string)
      /** A class; callable, not a function, has a `__name__`. */
    | VClass(name: string)
      /** A callable instance (an object with `__call__`) that has no `__name__`. */
    | VCallableObject(typeName: string)
      /** Any other object: neither callable nor a string. */
    | VObject(typeName: string)

  /** `callable(v) or isinstance(v, str)` */
  predicate IsCallableOrStr(v: Value) {
    v.VFunction? || v.VClass? || v.VCallableObject? || v.VStr?
  }

  /** Python truthiness (`if v:`). */
  predicate Truthy(v: Value) {
    match v
    case VNone => false
    case VBool(b) => b
    case VInt(i) => i != 0
    case VFloat(x) => x != 0.0
    case VStr(s) => |s| > 0
    case VBytes(bs) => |bs| > 0
    case VList(xs) => |xs| > 0
    case VTuple(xs) => |xs| > 0
    case VDict(es) => |es| > 0
    case _ => true
  }

  /** `isinstance(v, (int, float))`; `bool` is a subclass of `int`. */
  predicate IsNumber(v: Value) {
    v.VBool? || v.VInt? || v.VFloat?
  }

  /** The numeric value of a number (exact: quantities are only compared). */
  function NumberOf(v: Value): real
    requires IsNumber(v)
  {
    match v
    case VBool(b) => if b then 1.0 else 0.0
    case VInt(i) => i as real
    case VFloat(x) => x
  }

  // ---------------------------------------------------------------------
  // Dicts as ordered association lists

  /** Index of the first entry whose key is `k`, if any. */
  function FindKey(es: seq<(Value, Value)>, k: Value): (r: Option<nat>)
    ensures r.Some? ==> r.value < |es| && es[r.value].0 == k
    ensures r.Some? ==> forall j :: 0 <= j < r.value ==> es[j].0 != k
    ensures r.None? ==> forall j :: 0 <= j < |es| ==> es[j].0 != k
  {
    if |es| == 0 then None
    else if es[0].0 == k then Some(0)
    else match FindKey(es[1..], k)
      case None => None
      case Some(j) => Some(j + 1)
  }

  predicate HasKey(es: seq<(Value, Value)>, k: Value) {
    FindKey(es, k).Some?
  }

  /** `d.get(k, dflt)` */
  function Get(es: seq<(Value, Value)>, k: Value, dflt: Value): Value {
    match FindKey(es, k)
    case Some(j) => es[j].1
    case None => dflt
  }

  /** `d[k] = v`: overwrite in place when present, append otherwise. */
  function Put(es: seq<(Value, Value)>, k: Value, v: Value): seq<(Value, Value)> {
    match FindKey(es, k)
    case Some(j) => es[j := (k, v)]
    case None => es + [(k, v)]
  }

  /** Keys of a dict are pairwise distinct, as in every Python dict. */
  predicate DistinctKeys(es: seq<(Value, Value)>) {
    forall i, j :: 0 <= i < j < |es| ==> es[i].0 != es[j].0
  }

  /** Two dicts with the same keys at the same positions find every key
      at the same index. */
  lemma {:induction false} FindKeySameKeys(es: seq<(Value, Value)>, es': seq<(Value, Value)>, k: Value)
    requires |es| == |es'|
    requires forall i :: 0 <= i < |es| ==> es[i].0 == es'[i].0
    ensures FindKey(es, k) == FindKey(es', k)
  {
    if |es| > 0 && es[0].0 != k {
      FindKeySameKeys(es[1..], es'[1..], k);
    }
  }

  lemma FindKeyAppend(es: seq<(Value, Value)>, k: Value, v: Value, k': Value)
    requires FindKey(es, k).None?
    ensures FindKey(es + [(k, v)], k') ==
            if k' == k then Some(|es|) else FindKey(es, k')
  {
    var es' := es + [(k, v)];
    assert forall i :: 0 <= i < |es| ==> es'[i] == es[i];
    assert es'[|es|].0 == k;
    var a := FindKey(es', k');
    var b := FindKey(es, k');
    if k' == k {
      assert a.Some?;
    } else if b.Some? {
      assert a.Some? && a.value <= b.value;
    } else {
      assert a.None?;
    }
  }

  /** `Put` writes `k` and leaves every other key's value alone. */
  lemma PutSemantics(es: seq<(Value, Value)>, k: Value, v: Value)
    ensures DistinctKeys(es) ==> DistinctKeys(Put(es, k, v))
    ensures Get(Put(es, k, v), k, VNone) == v
    ensures forall k', d :: k' != k ==> Get(Put(es, k, v), k', d) == Get(es, k', d)
    ensures forall k' :: HasKey(Put(es, k, v), k') <==> HasKey(es, k') || k' == k
  {
    var es' := Put(es, k, v);
    match FindKey(es, k)
    case Some(j) =>
      assert forall i :: 0 <= i < |es| ==> es'[i].0 == es[i].0;
      forall k' ensures FindKey(es', k') == FindKey(es, k') {
        FindKeySameKeys(es, es', k');
      }
    case None =>
      assert forall i :: 0 <= i < |es| ==> es'[i] == es[i];
      forall k' ensures FindKey(es', k') == if k' == k then Some(|es|) else FindKey(es, k') {
        FindKeyAppend(es, k, v, k');
      }
  }

  // ---------------------------------------------------------------------
  // JSON

  /** Keys `json.dumps` accepts: str, int, float, bool or None. */
  predicate JsonKey(k: Value) {
    k.VStr? || k.VInt? || k.VFloat? || k.VBool? || k.VNone?
  }

  /** `json.dumps(v)` (default arguments) succeeds. bytes, functions,
      classes and other objects raise `TypeError`, as do unsupported
      dict keys; tuples are written as arrays. */
  predicate JsonEncodable(v: Value) {
    match v
    case VNone => true
    case VBool(_) => true
    case VInt(_) => true
    case VFloat(_) => true
    case VStr(_) => true
    case VList(xs) => forall i :: 0 <= i < |xs| ==> JsonEncodable(xs[i])
    case VTuple(xs) => forall i :: 0 <= i < |xs| ==> JsonEncodable(xs[i])
    case VDict(es) =>
      forall i :: 0 <= i < |es| ==> JsonKey(es[i].0) && JsonEncodable(es[i].1)
    case _ => false
  }

  /** Values that `json.loads(json.dumps(v))` gives back unchanged: no
      tuples (they come back as lists) and dicts with distinct string keys
      (other keys come back as strings). */
  predicate JsonNative(v: Value) {
    match v
    case VNone => true
    case VBool(_) => true
    case VInt(_) => true
    case VFloat(_) => true
    case VStr(_) => true
    case VList(xs) => forall i :: 0 <= i < |xs| ==> JsonNative(xs[i])
    case VDict(es) =>
      && DistinctKeys(es)
      && forall i :: 0 <= i < |es| ==> es[i].0.VStr? && JsonNative(es[i].1)
    case _ => false
  }

  lemma {:induction false} JsonNativeIsEncodable(v: Value)
    requires JsonNative(v)
    ensures JsonEncodable(v)
  {
    match v
    case VList(xs) =>
      forall i | 0 <= i < |xs| ensures JsonEncodable(xs[i]) {
        JsonNativeIsEncodable(xs[i]);
      }
    case VDict(es) =>
      forall i | 0 <= i < |es| ensures JsonKey(es[i].0) && JsonEncodable(es[i].1) {
        JsonNativeIsEncodable(es[i].1);
      }
    case _ =>
  }
}
