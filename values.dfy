/**
 * The JavaScript values the middleware handles as `unknown`: request and
 * response bodies, route parameters, query objects and cookies.
 */
module JsValues {

  /**
   * A JavaScript value. Numbers are integers here; `Bytes` is a Node Buffer,
   * which `typeof` reports as "object".
   */
  datatype Value =
    | Undefined
    | Null
    | Boolean(b: bool)
    | Number(n: int)
    | Text(s: string)
    | Bytes(data: seq<bv8>)
    | Array(items: seq<Value>)
    | Record(fields: map<string, Value>)

  /** `typeof v === "object"`: null, arrays, plain objects and Buffers. */
  predicate IsObjectTyped(v: Value) {
    v.Null? || v.Bytes? || v.Array? || v.Record?
  }

  /**
   * A body that parsing leaves alone: one that is already structured
   * (`typeof` "object") or absent (`typeof` "undefined").
   */
  predicate PassesThrough(v: Value) {
    IsObjectTyped(v) || v.Undefined?
  }

  /** What `res.getHeader(name)` can return for a header that is set. */
  datatype HeaderValue =
    | HeaderText(s: string)
    | HeaderNumber(n: int)
    | HeaderList(items: seq<string>)
}
