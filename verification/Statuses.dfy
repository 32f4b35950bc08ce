/** Status codes and values shared by the v1 client and server. */
module Statuses {
  /** One char of a std::string. */
  type Byte = c: char | c as int < 256 witness 'a'

  type Bytes = seq<Byte>

  const OK := 0
  const UNKNOWN := 2
  const INVALID_ARGUMENT := 3
  const NOT_FOUND := 5
  const INTERNAL := 13
  const FABRIC_TRANSPORT_ERROR := 50

  const METHOD_NOT_FOUND: Bytes := "method not found: "

  /** A code, a message, and the transport's own error code. */
  datatype Status = Status(code: int, message: Bytes, transportCode: int := 0) {
    predicate Failed() {
      code != OK
    }
  }

  const SUCCESS := Status(OK, "OK")
}
