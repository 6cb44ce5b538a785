/** JavaScript-side values that the two views handle: store documents, the
    flat objects built from them, and the few language operations (optional
    values, object spread, `Array.prototype.map`, a thrown `TypeError`) that
    the views rely on. */
module JsValues {

  /** `undefined` (None) or a present value. */
  datatype Option<+T> = None | Some(value: T)

  /** A field value of a store document as the client library hands it over.
      Integer-typed and double-typed numbers are kept apart because only the
      former have a fixed printed form in this model. */
  datatype Value = NullVal | IntVal(n: int) | RealVal(x: real) | StrVal(s: string)

  /** A flat object: field name to value; a key that is absent reads as
      `undefined`. Key order is not modelled. */
  type Record = map<string, Value>

  /** A store document: its store-assigned identifier and what `doc.data()` returns. */
  datatype Doc = Doc(id: string, data: Record)

  /** A query snapshot as the fetch hook exposes it; `docs` may be absent. */
  datatype Snapshot = Snapshot(docs: Option<seq<Doc>>)

  /** The outcome of evaluating an expression that may throw a `TypeError`
      (a property read or method call on `undefined`). */
  datatype Eval<+T> = Ok(value: T) | TypeError

  /** Property read `r.k`. */
  function Get(r: Record, k: string): (v: Option<Value>)
    ensures v.Some? <==> k in r
    ensures v.Some? ==> v.value == r[k]
  {
    if k in r then Some(r[k]) else None
  }

  /** Object spread `{...base, ...over}`: later keys override earlier ones. */
  function Spread(base: Record, over: Record): (r: Record)
    ensures r.Keys == base.Keys + over.Keys
    ensures forall k :: k in over ==> r[k] == over[k]
    ensures forall k :: k in base && k !in over ==> r[k] == base[k]
  {
    base + over
  }

  /** `xs.map(f)`: one result per element, in the same order. */
  function ArrayMap<A, B>(f: A -> B, xs: seq<A>): (ys: seq<B>)
    ensures |ys| == |xs|
    ensures forall i :: 0 <= i < |xs| ==> ys[i] == f(xs[i])
  {
    if xs == [] then [] else [f(xs[0])] + ArrayMap(f, xs[1..])
  }
}
