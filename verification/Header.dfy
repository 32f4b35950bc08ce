/** The two header messages on the wire, after the Protocol Buffers Encoding specification, sections
    "Base 128 Varints" and "Length-Delimited Records"; string fields are UTF-8. */
module Headers {
  import opened Options
  import opened Statuses
  import opened Texts
  import opened Encodings

  const TWO_TO_31: int := 0x8000_0000
  const TWO_TO_32: int := 0x1_0000_0000
  const TWO_TO_64: int := 0x1_0000_0000_0000_0000

  // ----- Varints -----

  function Varint(n: nat): Bytes {
    if n < 128 then [n as char]
    else [(n % 128 + 128) as char] + Varint(n / 128)
  }

  /** At most `limit` bytes; the value and what follows. */
  function ReadVarint(s: Bytes, limit: nat): Option<(nat, Bytes)>
    decreases limit
  {
    if s == [] || limit == 0 then None
    else
      var b := s[0] as nat;
      if b < 128 then Some((b, s[1..]))
      else match ReadVarint(s[1..], limit - 1)
        case None => None
        case Some((high, rest)) => Some((b % 128 + 128 * high, rest))
  }

  function Pow128(k: nat): nat {
    if k == 0 then 1 else 128 * Pow128(k - 1)
  }

  lemma {:induction false} VarintRoundTrip(n: nat, limit: nat, rest: Bytes)
    requires limit > 0 && n < Pow128(limit)
    ensures ReadVarint(Varint(n) + rest, limit) == Some((n, rest))
  {
    var s := Varint(n) + rest;
    if n < 128 {
      assert s[0] == n as char && s[1..] == rest;
    } else {
      var b := n % 128 + 128;
      assert s[0] == b as char;
      assert s[1..] == Varint(n / 128) + rest;
      VarintRoundTrip(n / 128, limit - 1, rest);
    }
  }

  lemma TenBytesHold64Bits()
    ensures Pow128(10) >= TWO_TO_64
  {
    assert Pow128(2) == 0x4000;
    assert Pow128(4) == 0x1000_0000;
    assert Pow128(6) == 0x400_0000_0000;
    assert Pow128(8) == 0x100_0000_0000_0000;
    assert Pow128(10) == 0x40_0000_0000_0000_0000;
  }

  lemma Varint64RoundTrip(n: nat, rest: Bytes)
    requires n < TWO_TO_64
    ensures ReadVarint(Varint(n) + rest, 10) == Some((n, rest))
  {
    TenBytesHold64Bits();
    VarintRoundTrip(n, 10, rest);
  }

  // ----- Fields -----

  datatype Field =
    | Number(num: nat, value: nat)
    | Block(num: nat, payload: Bytes)
    | Fixed(num: nat, raw: Bytes)

  /** Field numbers, values and lengths a message can carry; fixed fields have eight or four bytes. */
  predicate Encodable(f: Field) {
    && 0 < f.num < 0x2000_0000
    && (f.Number? ==> f.value < TWO_TO_64)
    && (f.Block? ==> |f.payload| < TWO_TO_31)
    && (f.Fixed? ==> |f.raw| == 8 || |f.raw| == 4)
  }

  function Wire(f: Field): nat {
    match f
    case Number(_, _) => 0
    case Block(_, _) => 2
    case Fixed(_, raw) => if |raw| == 8 then 1 else 5
  }

  function Body(f: Field): Bytes {
    match f
    case Number(_, value) => Varint(value)
    case Block(_, payload) => Varint(|payload|) + payload
    case Fixed(_, raw) => raw
  }

  /** The tag (number and wire type), then the body. */
  function Encode(f: Field): Bytes {
    Varint(8 * f.num + Wire(f)) + Body(f)
  }

  function EncodeAll(fields: seq<Field>): Bytes {
    if fields == [] then [] else Encode(fields[0]) + EncodeAll(fields[1..])
  }

  /** The payload of a field with the given number and wire type. */
  function ReadBody(num: nat, wire: nat, s: Bytes): Option<(Field, Bytes)> {
    if wire == 0 then
      match ReadVarint(s, 10)
      case None => None
      case Some((value, rest)) => Some((Number(num, value % TWO_TO_64), rest))
    else if wire == 2 then
      match ReadVarint(s, 10)
      case None => None
      case Some((len, rest)) =>
        if len >= TWO_TO_31 || len > |rest| then None else Some((Block(num, rest[..len]), rest[len..]))
    else if wire == 1 && |s| >= 8 then Some((Fixed(num, s[..8]), s[8..]))
    else if wire == 5 && |s| >= 4 then Some((Fixed(num, s[..4]), s[4..]))
    else None
  }

  /** One field and what follows; None on a truncated field, a field number 0 or an unknown wire type. */
  function ReadField(s: Bytes): Option<(Field, Bytes)> {
    match ReadVarint(s, 10)
    case None => None
    case Some((tag, rest)) =>
      if tag >= TWO_TO_32 || tag / 8 == 0 then None else ReadBody(tag / 8, tag % 8, rest)
  }

  lemma {:induction false} ReadVarintShrinks(s: Bytes, limit: nat)
    ensures ReadVarint(s, limit).Some? ==> |ReadVarint(s, limit).value.1| < |s|
    decreases limit
  {
    if s == [] || limit == 0 {
    } else {
      ReadVarintShrinks(s[1..], limit - 1);
    }
  }

  lemma ReadFieldShrinks(s: Bytes)
    ensures ReadField(s).Some? ==> |ReadField(s).value.1| < |s|
  {
    ReadVarintShrinks(s, 10);
    if ReadVarint(s, 10).Some? {
      ReadVarintShrinks(ReadVarint(s, 10).value.1, 10);
    }
  }

  function ReadFields(s: Bytes): Option<seq<Field>>
    decreases |s|
  {
    if s == [] then Some([])
    else match ReadField(s)
      case None => None
      case Some((f, rest)) =>
        ReadFieldShrinks(s);
        match ReadFields(rest)
        case None => None
        case Some(fields) => Some([f] + fields)
  }

  lemma TagRoundTrip(num: nat, wire: nat, tail: Bytes)
    requires 0 < num < 0x2000_0000 && wire < 8
    ensures ReadField(Varint(8 * num + wire) + tail) == ReadBody(num, wire, tail)
  {
    var tag := 8 * num + wire;
    assert tag < TWO_TO_32 && tag / 8 == num && tag % 8 == wire;
    Varint64RoundTrip(tag, tail);
  }

  lemma BodyRoundTrip(f: Field, rest: Bytes)
    requires Encodable(f)
    ensures f.Number? ==> ReadBody(f.num, 0, Varint(f.value) + rest) == Some((f, rest))
    ensures f.Block? ==> ReadBody(f.num, 2, Varint(|f.payload|) + (f.payload + rest)) == Some((f, rest))
    ensures f.Fixed? ==> ReadBody(f.num, if |f.raw| == 8 then 1 else 5, f.raw + rest) == Some((f, rest))
  {
    match f
    case Number(_, value) =>
      Varint64RoundTrip(value, rest);
    case Block(_, payload) =>
      var tail := payload + rest;
      assert tail[..|payload|] == payload && tail[|payload|..] == rest;
      Varint64RoundTrip(|payload|, tail);
    case Fixed(_, raw) =>
      var tail := raw + rest;
      assert tail[..|raw|] == raw && tail[|raw|..] == rest;
  }

  lemma FieldRoundTrip(f: Field, rest: Bytes)
    requires Encodable(f)
    ensures ReadField(Encode(f) + rest) == Some((f, rest))
  {
    BodyRoundTrip(f, rest);
    TagRoundTrip(f.num, Wire(f), Body(f) + rest);
    Regroup(Varint(8 * f.num + Wire(f)), Body(f), rest);
    if f.Block? { Regroup(Varint(|f.payload|), f.payload, rest); }
  }

  /** Reading what was written gives the fields back, in order, whatever they are. */
  lemma {:induction false} FieldsRoundTrip(fields: seq<Field>)
    requires forall f :: f in fields ==> Encodable(f)
    ensures ReadFields(EncodeAll(fields)) == Some(fields)
  {
    if fields == [] {
    } else {
      FieldRoundTrip(fields[0], EncodeAll(fields[1..]));
      FieldsRoundTrip(fields[1..]);
      assert fields == [fields[0]] + fields[1..];
    }
  }

  // ----- The two messages -----

  /** A message longer than this cannot be serialized. */
  const MAX_SIZE: nat := 0x7fff_ffff

  datatype ReplyHeader = ReplyHeader(code: int, message: Bytes)

  predicate Int32(n: int) {
    -TWO_TO_31 <= n < TWO_TO_31
  }

  /** An int32 travels as its sign-extended 64-bit pattern and is read from the low 32 bits. */
  function ToWire(n: int): nat
    requires Int32(n)
  {
    if n < 0 then n + TWO_TO_64 else n
  }

  function FromWire(v: nat): int {
    var low := v % TWO_TO_32;
    if low >= TWO_TO_31 then low - TWO_TO_32 else low
  }

  function Limited(data: Bytes): Option<Bytes> {
    if |data| <= MAX_SIZE then Some(data) else None
  }

  /** Fields holding their default value are not written. */
  function RequestFields(url: Bytes): seq<Field> {
    if url == "" then [] else [Block(1, url)]
  }

  function ReplyFields(h: ReplyHeader): seq<Field>
    requires Int32(h.code)
  {
    (if h.code == 0 then [] else [Number(1, ToWire(h.code))]) + (if h.message == "" then [] else [Block(2, h.message)])
  }

  function SerializeRequest(url: Bytes): Option<Bytes> {
    Limited(EncodeAll(RequestFields(url)))
  }

  function SerializeReply(h: ReplyHeader): Option<Bytes>
    requires Int32(h.code)
  {
    Limited(EncodeAll(ReplyFields(h)))
  }

  /** The last occurrence of a known field wins; other fields are skipped. */
  function UrlOf(fields: seq<Field>): Bytes {
    if fields == [] then ""
    else
      var last := fields[|fields| - 1];
      if last.Block? && last.num == 1 then last.payload else UrlOf(fields[..|fields| - 1])
  }

  function CodeOf(fields: seq<Field>): int {
    if fields == [] then 0
    else
      var last := fields[|fields| - 1];
      if last.Number? && last.num == 1 then FromWire(last.value) else CodeOf(fields[..|fields| - 1])
  }

  function MessageOf(fields: seq<Field>): Bytes {
    if fields == [] then ""
    else
      var last := fields[|fields| - 1];
      if last.Block? && last.num == 2 then last.payload else MessageOf(fields[..|fields| - 1])
  }

  /** A string field that is not UTF-8 makes the parser fail; bytes of unknown fields are not looked at. */
  predicate TextIn(fields: seq<Field>, num: nat) {
    forall i :: 0 <= i < |fields| && fields[i].Block? && fields[i].num == num ==> Utf8(fields[i].payload)
  }

  function DeserializeRequest(data: Bytes): Option<Bytes> {
    match ReadFields(data)
    case None => None
    case Some(fields) => if TextIn(fields, 1) then Some(UrlOf(fields)) else None
  }

  function DeserializeReply(data: Bytes): Option<ReplyHeader> {
    match ReadFields(data)
    case None => None
    case Some(fields) => if TextIn(fields, 2) then Some(ReplyHeader(CodeOf(fields), MessageOf(fields))) else None
  }

  lemma {:induction false} EncodedLength(fields: seq<Field>, f: Field)
    requires f in fields && f.Block?
    ensures |EncodeAll(fields)| > |f.payload|
  {
    if fields[0] == f {
    } else {
      assert f in fields[1..];
      EncodedLength(fields[1..], f);
    }
  }

  /** A url that serializes comes back if it is UTF-8, and is refused otherwise. */
  lemma RequestRoundTrip(url: Bytes)
    ensures var data := SerializeRequest(url); data.Some? ==>
      DeserializeRequest(data.value) == if Utf8(url) then Some(url) else None
  {
    if SerializeRequest(url).Some? {
      var fields := RequestFields(url);
      if url != "" {
        EncodedLength(fields, Block(1, url));
      }
      FieldsRoundTrip(fields);
    }
  }

  /** A reply header that serializes comes back, for every int32 code, negative ones included, if its
      message is UTF-8, and is refused otherwise. */
  lemma ReplyRoundTrip(h: ReplyHeader)
    requires Int32(h.code)
    ensures var data := SerializeReply(h); data.Some? ==>
      DeserializeReply(data.value) == if Utf8(h.message) then Some(h) else None
  {
    if SerializeReply(h).Some? {
      var fields := ReplyFields(h);
      if h.message != "" {
        EncodedLength(fields, Block(2, h.message));
        assert fields[|fields| - 1] == Block(2, h.message);
      }
      FieldsRoundTrip(fields);
      ReplyFieldsRead(h);
    }
  }

  /** A message that is not UTF-8: it is written, and the bytes are refused. */
  lemma WrittenButRefused(code: int)
    requires Int32(code) && code != 0
    ensures var h := ReplyHeader(code, [255 as char]);
      SerializeReply(h).Some? && DeserializeReply(SerializeReply(h).value) == None
  {
    var h := ReplyHeader(code, [255 as char]);
    var c, m := Number(1, ToWire(code)), Block(2, h.message);
    VarintShort(ToWire(code));
    assert EncodeAll([c, m]) == Encode(c) + EncodeAll([m]);
    assert EncodeAll([m]) == Encode(m) + EncodeAll([]);
    assert Utf8Step(h.message) == 0;
    ReplyRoundTrip(h);
  }

  lemma ReplyFieldsRead(h: ReplyHeader)
    requires Int32(h.code)
    ensures CodeOf(ReplyFields(h)) == h.code && MessageOf(ReplyFields(h)) == h.message
  {
    var fields := ReplyFields(h);
    var code, message := Number(1, ToWire(h.code)), Block(2, h.message);
    WireRoundTrip(h.code);
    assert CodeOf([]) == 0 && MessageOf([]) == "";
    assert [code][..0] == [] && [message][..0] == [];
    assert [code, message][..1] == [code];
  }

  lemma WireRoundTrip(n: int)
    requires Int32(n)
    ensures FromWire(ToWire(n)) == n
  {
    if n < 0 {
      assert (n + TWO_TO_64) % TWO_TO_32 == n + TWO_TO_32;
    }
  }

  /** Header bytes are empty only for the one header that is all default. */
  lemma EmptyOnlyForDefaults(url: Bytes, h: ReplyHeader)
    requires Int32(h.code)
    ensures SerializeRequest(url) == Some([]) <==> url == ""
    ensures SerializeReply(h) == Some([]) <==> h.code == 0 && h.message == ""
  {
    if url != "" { EncodedLength(RequestFields(url), Block(1, url)); }
    if h.message != "" { EncodedLength(ReplyFields(h), Block(2, h.message)); }
  }

  /** The bytes themselves: a request's url is field one, a reply's code and message are fields one and two. */
  lemma WireBytes(url: Byte, code: nat, message: Byte)
    requires 0 < code < 128
    ensures SerializeRequest([url]) == Some([10 as char, 1 as char, url])
    ensures SerializeReply(ReplyHeader(code, [message])) ==
      Some([8 as char, code as char, 18 as char, 1 as char, message])
  {
    var u, c, m := Block(1, [url]), Number(1, code), Block(2, [message]);
    assert Varint(10) == [10 as char] && Varint(18) == [18 as char] && Varint(8) == [8 as char] &&
      Varint(1) == [1 as char];
    assert Encode(u) == [10 as char, 1 as char, url] && Encode(m) == [18 as char, 1 as char, message];
    assert Encode(c) == [8 as char, code as char];
    assert EncodeAll([u]) == Encode(u) + EncodeAll([]);
    assert RequestFields([url]) == [u] && ReplyFields(ReplyHeader(code, [message])) == [c, m];
    assert EncodeAll([c, m]) == Encode(c) + EncodeAll([m]);
    assert EncodeAll([m]) == Encode(m) + EncodeAll([]);
    assert EncodeAll([u]) == [10 as char, 1 as char, url];
    assert EncodeAll([c, m]) == [8 as char, code as char, 18 as char, 1 as char, message];
  }

  /** A negative code takes ten bytes. */
  lemma NegativeCodeLength(code: int)
    requires Int32(code) && code < 0
    ensures |Varint(ToWire(code))| == 10
  {
    TenBytesHold64Bits();
    assert Pow128(9) == 0x8000_0000_0000_0000 by {
      assert Pow128(3) == 0x20_0000 && Pow128(5) == 0x8_0000_0000;
      assert Pow128(7) == 0x2_0000_0000_0000;
    }
    VarintLength(ToWire(code), 10);
  }

  lemma VarintShort(n: nat)
    requires n < TWO_TO_64
    ensures |Varint(n)| <= 10
  {
    TenBytesHold64Bits();
    VarintBound(n, 10);
  }

  lemma {:induction false} VarintBound(n: nat, k: nat)
    requires k > 0 && n < Pow128(k)
    ensures |Varint(n)| <= k
  {
    if n < 128 {
    } else {
      assert n / 128 < Pow128(k - 1);
      VarintBound(n / 128, k - 1);
    }
  }

  lemma {:induction false} VarintLength(n: nat, k: nat)
    requires k > 0 && n < Pow128(k) && (k > 1 ==> n >= Pow128(k - 1))
    ensures |Varint(n)| == k
  {
    if k == 1 {
    } else {
      assert n / 128 < Pow128(k - 1) && (k > 2 ==> n / 128 >= Pow128(k - 2));
      VarintLength(n / 128, k - 1);
    }
  }
}
