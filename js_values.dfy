/** Values as they arrive in a `/chat` request body once Express has parsed it as JSON. */
module JsValues {

  /** A JavaScript value read from the parsed body. A field the client left out reads as
      `Undefined`; arrays and objects are never looked into, so they are one case. */
  datatype Value =
    | Undefined
    | Null
    | Bool(b: bool)
    | Number(n: real)
    | Str(s: string)
    | Compound

  /** `typeof v === "string"` */
  predicate IsString(v: Value) {
    v.Str?
  }
}
