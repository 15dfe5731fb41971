/**
 Values that cross the endpoint's boundaries: optional request fields, raw
 archive bytes, and the Python exceptions the code raises or catches. Python
 dispatches `except` clauses on the exception's class, so an exception is
 modelled by the class that matters to main.py plus its message.
 */
module Values {

  import PyStr

  datatype Option<T> = None | Some(value: T)

  /** Python truthiness of an optional string field: neither None nor "". */
  predicate Truthy(s: Option<string>) {
    s.Some? && s.value != ""
  }

  newtype byte = b: int | 0 <= b < 256

  type Bytes = seq<byte>

  /** An exception, by the class the `except` arms of main.py test for. */
  datatype PyError =
    | ValueError(msg: string)                    // ValueError or a subclass
    | RuntimeError(msg: string)                  // RuntimeError or a subclass
    | HttpException(status: nat, detail: string) // fastapi.HTTPException
    | OtherError(text: string)                   // any other Exception; `text` is its str()

  /** `str(e)`. For an HTTPException this is Starlette's rendering
      "<status>: <detail>". */
  function Str(e: PyError): string {
    match e
    case ValueError(m) => m
    case RuntimeError(m) => m
    case HttpException(s, d) => PyStr.Decimal(s) + ": " + d
    case OtherError(t) => t
  }

  /** The value an oracle returns, or the exception it raises. */
  datatype Result<T> = Ok(value: T) | Err(error: PyError)
}
