/** The v2 helpers that turn header bytes and payloads into statuses and back. */
module Parsing {
  import opened Options
  import opened Statuses
  import opened Headers
  import opened Encodings

  const UNIMPLEMENTED := 12

  /** The first code after the canonical ones; status_from_header still lets it through. */
  const MAX_CODE := 20

  const UNKNOWN_CODE: Text := Words(["reply_header has ", "unknown statuscode: "])
  const PARSE_FAILED: Text := "parse_proto_payload failed"

  /** absl::Status: any int code; a status that is ok has no message. */
  datatype Raw = Raw(code: int, message: Bytes)
  type AbslStatus = s: Raw | Int32(s.code) && (s.code == OK ==> s.message == "") witness Raw(OK, "")

  /** absl's constructor drops the message of an ok status. */
  function Absl(code: int, message: Bytes): AbslStatus
    requires Int32(code)
  {
    if code == OK then Raw(OK, "") else Raw(code, message)
  }

  function Ok(): AbslStatus {
    Raw(OK, "")
  }

  predicate InRange(code: int) {
    OK <= code <= MAX_CODE
  }

  function Digits(n: nat): Bytes {
    (if n < 10 then "" else Digits(n / 10)) + [(n % 10 + 48) as char]
  }

  function Decimal(n: int): Bytes {
    if n < 0 then "-" + Digits(-n) else Digits(n)
  }

  function UnknownCode(code: int): AbslStatus {
    Raw(INVALID_ARGUMENT, UNKNOWN_CODE + Decimal(code))
  }

  function StatusFromHeader(h: ReplyHeader): AbslStatus {
    if !InRange(h.code) then UnknownCode(h.code) else Absl(h.code, h.message)
  }

  function ParseFailed(): AbslStatus {
    Raw(UNKNOWN, PARSE_FAILED)
  }

  function ParseReplyHeader(data: Bytes): AbslStatus {
    match DeserializeReply(data)
    case None => ParseFailed()
    case Some(h) => StatusFromHeader(h)
  }

  function SerializeReplyHeader(st: AbslStatus): Option<Bytes> {
    SerializeReply(ReplyHeader(st.code, st.message))
  }

  lemma NotAscii(message: Bytes)
    requires !Utf8(message)
    ensures !Ascii(message)
  {
    if Ascii(message) {
      AsciiIsUtf8(message);
    }
  }

  /** What the client reads from the header of a status: the status itself if and only if its code is in
      the accepted range and its message is UTF-8; otherwise a parse failure, or a complaint that names
      the code. */
  lemma StatusRoundTrip(st: AbslStatus)
    requires SerializeReplyHeader(st).Some?
    ensures ParseReplyHeader(SerializeReplyHeader(st).value) ==
      if !Utf8(st.message) then ParseFailed() else if InRange(st.code) then st else UnknownCode(st.code)
    ensures ParseReplyHeader(SerializeReplyHeader(st).value) == st <==> InRange(st.code) && Utf8(st.message)
  {
    ReplyRoundTrip(ReplyHeader(st.code, st.message));
    if !Utf8(st.message) {
      NotAscii(st.message);
    }
  }
}
