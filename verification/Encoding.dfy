/** The text encoding of string fields: UTF-8, after section 4 of RFC 3629. */
module Encodings {
  import opened Statuses

  predicate Within(c: char, low: int, high: int) {
    low <= c as int <= high
  }

  predicate Continues(c: char) {
    Within(c, 0x80, 0xBF)
  }

  /** The length in bytes of the character at the start; 0 if there is none. */
  function Utf8Step(s: Bytes): (n: nat)
    requires s != ""
    ensures n <= |s|
  {
    if Within(s[0], 0, 0x7F) then 1
    else if |s| >= 2 && Within(s[0], 0xC2, 0xDF) && Continues(s[1]) then 2
    else if |s| >= 3 && Within(s[0], 0xE0, 0xEF) && Continues(s[2])
      && Within(s[1], if s[0] as int == 0xE0 then 0xA0 else 0x80, if s[0] as int == 0xED then 0x9F else 0xBF) then 3
    else if |s| >= 4 && Within(s[0], 0xF0, 0xF4) && Continues(s[2]) && Continues(s[3])
      && Within(s[1], if s[0] as int == 0xF0 then 0x90 else 0x80, if s[0] as int == 0xF4 then 0x8F else 0xBF) then 4
    else 0
  }

  /** What a proto3 string field must be. */
  predicate Utf8(s: Bytes)
    decreases |s|
  {
    s == "" || (Utf8Step(s) > 0 && Utf8(s[Utf8Step(s)..]))
  }

  predicate Ascii(s: Bytes) {
    forall i :: 0 <= i < |s| ==> Within(s[i], 0, 0x7F)
  }

  lemma {:induction false} AsciiIsUtf8(s: Bytes)
    requires Ascii(s)
    ensures Utf8(s)
    decreases |s|
  {
    if s == "" {
    } else {
      AsciiIsUtf8(s[1..]);
    }
  }

  /** The program's own messages are ASCII. */
  type Text = s: Bytes | Ascii(s)

  /** Longer messages are written in pieces. */
  function Words(pieces: seq<Text>): Text {
    if pieces == [] then "" else pieces[0] + Words(pieces[1..])
  }
}
