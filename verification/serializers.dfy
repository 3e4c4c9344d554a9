/** The opaque serializers the configuration layer calls: cloudpickle and
    the `json` module. Their internals are not modelled; each is a pair of
    functions, and the laws a caller may rely on are predicates that the
    round-trip lemmas take as hypotheses.

    The laws are deliberately local. A law that every float pickles (or
    JSON-encodes) and loads back would ask `dumps` to map all reals
    one-to-one into byte strings, which no function can do. The laws therefore
    say only what holds wherever the serializer succeeds. A round trip of one
    particular value is a separate per-value hypothesis (`JsonRoundTrips`, or
    `dumps(v).Some?` for a lawful pickler). */
module Serializers {
  import opened Wrappers
  import opened Values

  /** `cloudpickle.dumps` / `cloudpickle.loads`; `None` is a raised error. */
  datatype Pickler = Pickler(dumps: Value -> Option<Bytes>, loads: Bytes -> Option<Value>)

  /** A pickle is never empty (it ends in the STOP opcode), and whatever
      was pickled loads back to the value that was dumped. */
  ghost predicate LawfulPickler(p: Pickler) {
    forall v :: p.dumps(v).Some? ==> |p.dumps(v).value| > 0 && p.loads(p.dumps(v).value) == Some(v)
  }

  /** `json.dumps` / `json.loads`; `None` is a raised error. */
  datatype Json = Json(dumps: Value -> Option<string>, loads: string -> Option<Value>)

  /** `json.dumps` succeeds exactly on JSON-encodable values and never writes
      an empty document, and `json.loads` only ever builds JSON-native values
      (lists, never tuples; dicts with string keys). */
  ghost predicate LawfulJson(j: Json) {
    && (forall v :: j.dumps(v).Some? <==> JsonEncodable(v))
    && (forall v :: j.dumps(v).Some? ==> |j.dumps(v).value| > 0)
    && (forall s :: j.loads(s).Some? ==> JsonNative(j.loads(s).value))
  }

  /** `json.loads(json.dumps(v)) == v` for this one value. */
  ghost predicate JsonRoundTrips(j: Json, v: Value) {
    j.dumps(v).Some? && j.loads(j.dumps(v).value) == Some(v)
  }

  /** Only JSON-native values can come back unchanged from a lawful json
      module: a tuple comes back as a list, a non-string key is rejected. */
  lemma RoundTripsOnlyNative(j: Json, v: Value)
    requires LawfulJson(j) && JsonRoundTrips(j, v)
    ensures JsonNative(v) && JsonEncodable(v)
  {
  }

  /** Position of the first occurrence of `v` in `table`. */
  function IndexIn(table: seq<Value>, v: Value): (i: nat)
    requires v in table
    ensures i < |table| && table[i] == v
  {
    if table[0] == v then 0 else 1 + IndexIn(table[1..], v)
  }

  /** A pickler that can serialize exactly the values of `table`: the
      pickle of the `i`-th is `i + 1` bytes long. */
  function TablePickler(table: seq<Value>): Pickler {
    Pickler(
      v => if v in table then Some(seq(IndexIn(table, v) + 1, _ => 1)) else None,
      bs => if 0 < |bs| <= |table| then Some(table[|bs| - 1]) else None)
  }

  /** The pickler laws can be met, together with the pickling of any
      chosen finite set of values. */
  lemma TablePicklerIsLawful(table: seq<Value>)
    ensures LawfulPickler(TablePickler(table))
    ensures forall v :: v in table ==> TablePickler(table).dumps(v).Some?
  {
  }

  /** A json module that encodes every encodable value and reads back two
      chosen documents. */
  function PairJson(a: Value, b: Value): Json {
    Json(
      v => if !JsonEncodable(v) then None else if v == a then Some("a") else if v == b then Some("b") else Some("0"),
      s => if s == "a" then Some(a) else if s == "b" then Some(b) else None)
  }

  /** The json laws can be met, together with the round trip of any two
      JSON-native values. */
  lemma PairJsonIsLawful(a: Value, b: Value)
    requires JsonNative(a) && JsonNative(b)
    ensures LawfulJson(PairJson(a, b))
    ensures JsonRoundTrips(PairJson(a, b), a) && JsonRoundTrips(PairJson(a, b), b)
  {
    JsonNativeIsEncodable(a);
    JsonNativeIsEncodable(b);
  }
}
