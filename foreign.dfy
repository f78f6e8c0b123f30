/**
 * The library calls the backend makes (`serde_json`, the `base64` crate's STANDARD
 * engine, UTF-8 conversion, `HashSet` iteration), passed in as functions so that the
 * model states its own logic around whatever any library returns.
 */
module Foreign {
  import opened Wrappers
  import opened Json

  /** One byte of a UTF-8 encoding or of decoded base64. */
  type byte = b: int | 0 <= b < 256

  /** Each `Err` carries the library's own error message. */
  datatype Library = Library(
    /** `serde_json::from_str::<Value>`. */
    parseJson: string -> Result<Value>,
    /** `e.line()` and `e.column()` of the error `serde_json::from_str` reports for
        `text`. */
    errorPosition: string -> (nat, nat),
    /** `serde_json::to_string_pretty`. */
    prettyJson: Value -> Result<string>,
    /** `STANDARD.encode`. */
    base64Encode: seq<byte> -> string,
    /** `STANDARD.decode`. */
    base64Decode: string -> Result<seq<byte>>,
    /** `str::as_bytes`. */
    utf8Bytes: string -> seq<byte>,
    /** `String::from_utf8`. */
    utf8Decode: seq<byte> -> Result<string>,
    /** The order in which a `HashSet` of type names is iterated. */
    typeOrder: set<string> -> seq<string>)
}
