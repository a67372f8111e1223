/**
 * Field values of a search result and their normalisation into JSON-ready
 * values (DefaultSolrService.getJsonValue).
 */
module JsonValues {

  /** Java's `long`. */
  newtype int64 = x: int | -0x8000_0000_0000_0000 <= x < 0x8000_0000_0000_0000

  /**
   * The kinds of object a result field can hold. `List` is a `java.util.List`
   * (a multi-valued field); `Array` is a JSON array, which is iterable but not a
   * `java.util.List`; `Date` carries its epoch-millisecond time; `Other` stands
   * for any further object, carried by identity.
   */
  datatype Value =
    | Null
    | Bool(b: bool)
    | Long(n: int64)
    | Double(bits: bv64)
    | Text(s: string)
    | Date(time: int64)
    | List(elems: seq<Value>)
    | Array(elems: seq<Value>)
    | Other(id: nat)

  /**
   * getJsonValue: a date becomes its epoch-millisecond time, a list becomes a
   * JSON array of its normalised elements in the same order, and every other
   * value is returned as it is.
   */
  function Normalise(v: Value): (r: Value)
    decreases v
    ensures v.Date? ==> r == Long(v.time)
    ensures v.List? ==> r.Array? && |r.elems| == |v.elems|
    ensures v.List? ==> forall i :: 0 <= i < |v.elems| ==> r.elems[i] == Normalise(v.elems[i])
    ensures !v.Date? && !v.List? ==> r == v
  {
    match v
    case Date(t) => Long(t)
    case List(xs) => Array(NormaliseAll(xs))
    case _ => v
  }

  /** The loop of getJsonValue over a list: each element normalised, in order. */
  function NormaliseAll(xs: seq<Value>): (ys: seq<Value>)
    decreases xs
    ensures |ys| == |xs|
    ensures forall i :: 0 <= i < |xs| ==> ys[i] == Normalise(xs[i])
  {
    if xs == [] then [] else [Normalise(xs[0])] + NormaliseAll(xs[1..])
  }

  /** A date occurs in `v` at some depth, looking inside lists and arrays alike. */
  predicate ContainsDate(v: Value) {
    match v
    case Date(_) => true
    case List(xs) => exists i :: 0 <= i < |xs| && ContainsDate(xs[i])
    case Array(xs) => exists i :: 0 <= i < |xs| && ContainsDate(xs[i])
    case _ => false
  }

  /** A JSON array occurs in `v` at some depth. */
  predicate ContainsArray(v: Value) {
    match v
    case Array(_) => true
    case List(xs) => exists i :: 0 <= i < |xs| && ContainsArray(xs[i])
    case _ => false
  }

  /**
   * A date that normalisation never reaches: one inside a JSON array that is
   * itself reached only through lists.
   */
  predicate ShieldedDate(v: Value) {
    match v
    case List(xs) => exists i :: 0 <= i < |xs| && ShieldedDate(xs[i])
    case Array(xs) => exists i :: 0 <= i < |xs| && ContainsDate(xs[i])
    case _ => false
  }

  /** Normalisation leaves a date behind exactly where it cannot reach one. */
  lemma {:induction false} NormaliseLeavesDateIff(v: Value)
    ensures ContainsDate(Normalise(v)) <==> ShieldedDate(v)
  {
    match v
    case List(xs) =>
      var ys := NormaliseAll(xs);
      forall i | 0 <= i < |xs|
        ensures ContainsDate(ys[i]) <==> ShieldedDate(xs[i])
      {
        NormaliseLeavesDateIff(xs[i]);
      }
      if ContainsDate(Normalise(v)) {
        var i :| 0 <= i < |ys| && ContainsDate(ys[i]);
        assert ShieldedDate(xs[i]);
      }
      if ShieldedDate(v) {
        var i :| 0 <= i < |xs| && ShieldedDate(xs[i]);
        assert ContainsDate(ys[i]);
      }
    case _ =>
  }

  /** A date shielded from normalisation sits inside some JSON array. */
  lemma {:induction false} ShieldedDateNeedsArray(v: Value)
    requires ShieldedDate(v)
    ensures ContainsArray(v)
  {
    match v
    case List(xs) =>
      var i :| 0 <= i < |xs| && ShieldedDate(xs[i]);
      ShieldedDateNeedsArray(xs[i]);
    case Array(_) =>
  }

  /**
   * Values built only of scalars, dates and lists, as a search server returns
   * them, keep no date at any depth once normalised.
   */
  lemma NoDateRemains(v: Value)
    requires !ContainsArray(v)
    ensures !ContainsDate(Normalise(v))
  {
    NormaliseLeavesDateIff(v);
    if ShieldedDate(v) {
      ShieldedDateNeedsArray(v);
    }
  }
}
