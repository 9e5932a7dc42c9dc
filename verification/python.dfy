/** The Python objects the loader hands work to: user resolvers and constructors, and the
    library routines behind the float and binary constructors. The loader never looks inside
    them, so each is a reference, and what calling it does is a function of the host. */
module Python {
  import opened Outcome
  import opened Values

  /** A Python object held by the loader: a resolver, a constructor or a match object. */
  type PyRef = nat

  datatype Host = Host(
    /** `PyCallable_Check(obj)`. */
    isCallable: PyRef -> bool,
    /** `PyObject_HasAttrString(obj, "match")`. */
    hasMatch: PyRef -> bool,
    /** `resolver.match(text)`: a match object, Python's None, or the exception it raised. */
    resolverMatch: (PyRef, string) -> Result<Option<PyRef>>,
    /** `constructor(text, match)` for a scalar; `match` is None when there is no match object. */
    constructScalar: (PyRef, string, Option<PyRef>) -> Result<Value>,
    /** `constructor(source)` for a collection built under a custom tag. */
    constructCollection: (PyRef, Value) -> Result<Value>,
    /** `_to_float`: the float the text stands for, or the ValueError of a text that is none. */
    floatOf: string -> Result<Value>,
    /** `base64.decodebytes(text)`. */
    decodeBase64: string -> Result<Value>)
}
