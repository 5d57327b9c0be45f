/** Failure-carrying values shared by the whole model: an optional value, a Go `error`, and a value-or-error. */
module Wrappers {

  datatype Option<T> = None | Some(value: T) {
    function GetOr(default: T): T {
      match this
      case Some(v) => v
      case None => default
    }
  }

  /** A Go `error` as the client produces it. */
  datatype Error =
    /** A validator's fixed message (`fmt.Errorf("…")` with no arguments). */
    | Invalid(message: string)
    /** The simple-price decoder could not parse a value: the coin, the field path after the coin, the raw value text. */
    | BadValue(coinID: string, field: string, raw: string)
    /** An error produced by code outside the model (transport, JSON scanner, json.Unmarshal), passed through unchanged. */
    | Foreign(detail: string)

  /** A Go `(T, error)` pair where exactly one side is meaningful. */
  datatype Result<T> = Ok(value: T) | Err(error: Error)

  /** What a jsonparser `ObjectEach`/`ArrayEach`/`EachKey` walk hands over: the callback arguments in
      document order, and the scanner's own error if it stopped on malformed input after them. */
  datatype Scan<T> = Scan(items: seq<T>, failure: Option<Error>)
}
