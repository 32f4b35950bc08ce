/** A v2 call end to end: rpc_client, middleware, the generated handler, and the reply. */
module RpcV2 {
  import opened Options
  import opened Statuses
  import opened Headers
  import opened Encodings
  import opened Transports
  import opened Parsing
  import opened PrefixRouting
  import opened Middlewares
  import R = RpcV1

  /** The user's handler fills a response and returns a status. */
  type Handler<!Req, !Resp> = Req -> (AbslStatus, Resp)

  /** The answer to a handler's result: the status as it is, the serialized response, or the complaint. */
  function Sent<Resp>(respCodec: R.Codec<Resp>, st: AbslStatus, resp: Resp): (r: (AbslStatus, Bytes))
    ensures r.0.code != OK ==> r.1 == ""
  {
    if st.code != OK then (st, "")
    else if respCodec.serialize(resp).None? then (SerializeFailed(), "")
    else (Parsing.Ok(), respCodec.serialize(resp).value)
  }

  /** codegen_handler_helper: parse, call, serialize; the body is written only on success. */
  function Handle<Req, Resp>(reqCodec: R.Codec<Req>, respCodec: R.Codec<Resp>, user: Handler<Req, Resp>,
      payload: Bytes): (r: (AbslStatus, Bytes))
    ensures r.0.code != OK ==> r.1 == ""
  {
    match reqCodec.parse(payload)
    case None => (ParseFailed(), "")
    case Some(req) => Sent(respCodec, user(req).0, user(req).1)
  }

  const SERIALIZE_FAILED: Text := "serialize_proto_payload failed"

  function SerializeFailed(): AbslStatus {
    Raw(UNKNOWN, SERIALIZE_FAILED)
  }

  function OrEmpty(data: Option<Bytes>): Bytes {
    if data.None? then "" else data.value
  }

  /** The client's message; a header or request that does not serialize is sent as empty bytes. */
  function ClientMessage<Req>(codec: R.Codec<Req>, url: Bytes, req: Req): Message {
    Message(Some(OrEmpty(SerializeRequest(url))), [OrEmpty(codec.serialize(req))])
  }

  /** What the client's handler is told, and what happened to its reply object. */
  function ClientReads<Resp>(codec: R.Codec<Resp>, reply: Message): (AbslStatus, R.Response<Resp>) {
    var st := ParseReplyHeader(HeaderOf(reply));
    if st.code != OK then (st, R.Untouched)
    else
      match codec.parse(BodyOf(reply))
      case None => (ParseFailed(), R.Garbled)
      case Some(resp) => (Parsing.Ok(), R.Parsed(resp))
  }

  /** Calling the user's handler directly. */
  function Direct<Req, Resp>(user: Handler<Req, Resp>, req: Req): (AbslStatus, R.Response<Resp>) {
    var (st, resp) := user(req);
    if st.code != OK then (st, R.Untouched) else (Parsing.Ok(), R.Parsed(resp))
  }

  /** The service at position k reacts to the url with the user's handler. */
  ghost predicate Serves<Req, Resp>(
      svc: Service, url: Bytes, reqCodec: R.Codec<Req>, respCodec: R.Codec<Resp>, user: Handler<Req, Resp>) {
    forall payload :: svc.execute(url, payload) == Handle(reqCodec, respCodec, user, payload)
  }

  function UrlOf(name: Bytes, method_: Bytes): Bytes {
    "/" + Path(name, method_)
  }

  /** The request the handler is given, if any: one that does not serialize is read from empty bytes. */
  function Asked<Req>(codec: R.Codec<Req>, req: Req): Option<Req> {
    codec.parse(OrEmpty(codec.serialize(req)))
  }

  lemma AskedAsMeant<Req(!new)>(codec: R.Codec<Req>, req: Req)
    requires R.Lossless(codec) && codec.serialize(req).Some?
    ensures Asked(codec, req) == Some(req)
  {
  }

  /** A url the server reads as it was meant. */
  predicate Travels(url: Bytes) {
    Utf8(url) && SerializeRequest(url).Some?
  }

  /** A request whose url travels reaches the service of its first part when no earlier name is a prefix of it. */
  lemma RequestArrives<Req, Resp>(
    svcs: seq<Service>, k: nat, method_: Bytes, reqCodec: R.Codec<Req>, respCodec: R.Codec<Resp>,
    user: Handler<Req, Resp>, req: Req, received: Message)
    requires k < |svcs| && (forall n :: n in Names(svcs) ==> SlashFree(n))
    requires (forall i :: 0 <= i < k ==> !(svcs[i].name <= svcs[k].name))
    requires var url := UrlOf(svcs[k].name, method_);
      Serves(svcs[k], url, reqCodec, respCodec, user) && Travels(url)
      && Delivers(ClientMessage(reqCodec, url, req), received)
    ensures Outcome(svcs, received) ==
      match Asked(reqCodec, req)
      case None => (ParseFailed(), "")
      case Some(asked) => Sent(respCodec, user(asked).0, user(asked).1)
  {
    var url, body := UrlOf(svcs[k].name, method_), OrEmpty(reqCodec.serialize(req));
    RequestRoundTrip(url);
    DispatchedIffNoEarlierPrefix(Names(svcs), k, method_);
    assert url[1..] == Path(svcs[k].name, method_);
    ConcatOne(body);
  }

  /** The url the server reads; one that is too long is sent as an empty header. */
  function UrlRead(url: Bytes): Bytes {
    if SerializeRequest(url).None? then "" else url
  }

  predicate Refused(svcs: seq<Service>, url: Bytes) {
    !Utf8(url) || url == "" || url[0] != '/' || FirstPrefix(Names(svcs), url[1..], 0).None?
  }

  /** What the middleware answers to a url it cannot dispatch. */
  function Refusal(url: Bytes): AbslStatus {
    if !Utf8(url) then Unreadable()
    else if url == "" then Raw(INVALID_ARGUMENT, NO_URL)
    else if url[0] != '/' then Raw(INVALID_ARGUMENT, BAD_URL)
    else Raw(UNIMPLEMENTED, UNKNOWN_URL)
  }

  /** A status whose message is text, short enough, and whose code is accepted. */
  predicate Plain(st: AbslStatus) {
    0 < st.code <= MAX_CODE && |st.message| < 128 && Ascii(st.message)
  }

  lemma PlainArrives(st: AbslStatus)
    requires Plain(st)
    ensures SerializeReplyHeader(st).Some? && Utf8(st.message)
  {
    HeaderFits(st);
    AsciiIsUtf8(st.message);
  }

  lemma RefusalsPlain(url: Bytes)
    ensures Plain(Refusal(url))
  {
  }

  /** The client is told this status, by any message that delivers the reply, and its reply object is left alone. */
  ghost predicate ToldOnly<Resp(!new)>(reply: Option<Message>, respCodec: R.Codec<Resp>, st: AbslStatus) {
    reply.Some? && forall answer ::
      Delivers(reply.value, answer) ==> ClientReads(respCodec, answer) == (st, R.Untouched)
  }

  /** A url that is not UTF-8, is empty or too long, has no leading slash, or starts no registered name: the
      client is told so, and its reply object is left alone. */
  lemma RefusalsArrive<Req, Resp(!new)>(
    svcs: seq<Service>, url: Bytes, reqCodec: R.Codec<Req>, respCodec: R.Codec<Resp>, req: Req, received: Message)
    requires Delivers(ClientMessage(reqCodec, url, req), received) && Refused(svcs, UrlRead(url))
    ensures ToldOnly(ReplyTo(svcs, received), respCodec, Refusal(UrlRead(url)))
  {
    var read := UrlRead(url);
    RefusalsPlain(read);
    PlainArrives(Refusal(read));
    RequestRoundTrip(read);
    EmptyOnlyForDefaults("", ReplyHeader(0, ""));
    FirstPrefixIs(Names(svcs), if read == "" then "" else read[1..], 0);
    assert Outcome(svcs, received) == (Refusal(read), "");
    forall answer | Delivers(ReplyTo(svcs, received).value, answer)
      ensures ClientReads(respCodec, answer) == (Refusal(read), R.Untouched) {
      ClientReadsReply(respCodec, Refusal(read), "", answer);
    }
  }

  /** What the client reads when the handler's answer comes back. */
  function Told<Resp>(respCodec: R.Codec<Resp>, st: AbslStatus, resp: Resp): (AbslStatus, R.Response<Resp>) {
    if st.code == OK then
      if respCodec.serialize(resp).Some? then (Parsing.Ok(), R.Parsed(resp))
      else (SerializeFailed(), R.Untouched)
    else (if !Utf8(st.message) then ParseFailed() else if InRange(st.code) then st else UnknownCode(st.code),
      R.Untouched)
  }

  lemma HeaderFits(st: AbslStatus)
    requires 0 <= st.code < 128 && |st.message| < 128
    ensures SerializeReplyHeader(st).Some?
  {
    var code, message := Number(1, st.code), Block(2, st.message);
    assert EncodeAll([code, message]) == Encode(code) + EncodeAll([message]);
    assert EncodeAll([message]) == Encode(message) + EncodeAll([]);
    assert EncodeAll([code]) == Encode(code) + EncodeAll([]);
  }

  lemma SerializeFailedPlain()
    ensures Plain(SerializeFailed())
  {
  }

  /** What a client makes of a reply with this status and body. */
  function View<Resp>(respCodec: R.Codec<Resp>, st: AbslStatus, body: Bytes): (AbslStatus, R.Response<Resp>) {
    if !Utf8(st.message) then (ParseFailed(), R.Untouched)
    else if !InRange(st.code) then (UnknownCode(st.code), R.Untouched)
    else if st.code != OK then (st, R.Untouched)
    else if respCodec.parse(body).None? then (ParseFailed(), R.Garbled)
    else (Parsing.Ok(), R.Parsed(respCodec.parse(body).value))
  }

  /** The client's view of any reply that carries a status and a body. */
  lemma ClientReadsReply<Resp>(respCodec: R.Codec<Resp>, st: AbslStatus, body: Bytes, answer: Message)
    requires SerializeReplyHeader(st).Some? && Delivers(Message(SerializeReplyHeader(st), [body]), answer)
    ensures ClientReads(respCodec, answer) == View(respCodec, st, body)
  {
    StatusRoundTrip(st);
    ConcatOne(body);
  }

  lemma PlainView<Resp>(respCodec: R.Codec<Resp>, st: AbslStatus, body: Bytes)
    requires Plain(st)
    ensures View(respCodec, st, body) == (st, R.Untouched) && SerializeReplyHeader(st).Some?
  {
    PlainArrives(st);
  }

  lemma SentView<Resp(!new)>(respCodec: R.Codec<Resp>, st: AbslStatus, resp: Resp)
    requires R.Lossless(respCodec)
    ensures View(respCodec, Sent(respCodec, st, resp).0, Sent(respCodec, st, resp).1) == Told(respCodec, st, resp)
    ensures SerializeReplyHeader(Sent(respCodec, st, resp).0).Some? <==> st.code == OK || SerializeReplyHeader(st).Some?
  {
    if st.code != OK {
    } else if respCodec.serialize(resp).None? {
      SerializeFailedPlain();
      PlainView(respCodec, SerializeFailed(), "");
    } else {
      HeaderFits(Parsing.Ok());
    }
  }

  /** What the client reads of a handler's result, whatever it is. */
  lemma ReplyArrives<Resp(!new)>(
    svcs: seq<Service>, respCodec: R.Codec<Resp>, st: AbslStatus, resp: Resp, received: Message)
    requires R.Lossless(respCodec) && Outcome(svcs, received) == Sent(respCodec, st, resp)
    ensures ReplyTo(svcs, received).Some? <==> st.code == OK || SerializeReplyHeader(st).Some?
    ensures ReplyTo(svcs, received).Some? ==> forall answer :: Delivers(ReplyTo(svcs, received).value, answer) ==>
      ClientReads(respCodec, answer) == Told(respCodec, st, resp)
  {
    SentView(respCodec, st, resp);
    var (sent, body) := Outcome(svcs, received);
    forall answer | SerializeReplyHeader(sent).Some? && Delivers(Message(SerializeReplyHeader(sent), [body]), answer)
      ensures ClientReads(respCodec, answer) == View(respCodec, sent, body)
    {
      ClientReadsReply(respCodec, sent, body, answer);
    }
  }

  /** The service writes a body only with an ok status, as every generated handler does. */
  ghost predicate Careful(svc: Service) {
    forall url, payload :: svc.execute(url, payload).0.code != OK ==> svc.execute(url, payload).1 == ""
  }

  lemma DispatchCareful(svcs: seq<Service>, url: Bytes, payload: Bytes)
    requires (forall svc :: svc in svcs ==> Careful(svc)) && url != ""
    ensures Dispatch(svcs, url, payload).0.code != OK ==> Dispatch(svcs, url, payload).1 == ""
  {
    assert forall k :: 0 <= k < |svcs| ==> Careful(svcs[k]);
  }

  lemma OutcomeCareful(svcs: seq<Service>, received: Message)
    requires forall svc :: svc in svcs ==> Careful(svc)
    ensures Outcome(svcs, received).0.code != OK ==> Outcome(svcs, received).1 == ""
  {
    var url := DeserializeRequest(HeaderOf(received));
    if url.Some? && url.value != "" {
      DispatchCareful(svcs, url.value, BodyOf(received));
    }
  }

  /** A status other than OK always travels with an empty body: for any message, malformed or not, and
      any services made of generated handlers. */
  lemma FailuresTravelEmpty(svcs: seq<Service>, received: Message)
    requires (forall svc :: svc in svcs ==> Careful(svc)) && ReplyTo(svcs, received).Some?
    ensures var reply := ReplyTo(svcs, received).value; ParseReplyHeader(HeaderOf(reply)).code != OK ==>
      BodyOf(reply) == ""
  {
    var (st, body) := Outcome(svcs, received);
    OutcomeCareful(svcs, received);
    StatusRoundTrip(st);
    ConcatOne(body);
  }

  ghost predicate LikeDirect<Req, Resp(!new)>(
      reply: Option<Message>, respCodec: R.Codec<Resp>, user: Handler<Req, Resp>, req: Req) {
    reply.Some? && forall answer ::
      Delivers(reply.value, answer) ==> ClientReads(respCodec, answer) == Direct(user, req)
  }

  /** Statuses in the accepted range with UTF-8 messages and a header that serializes, and responses that
      serialize. */
  ghost predicate Presentable<Req, Resp>(respCodec: R.Codec<Resp>, user: Handler<Req, Resp>, req: Req) {
    var (st, resp) := user(req);
    if st.code == OK then respCodec.serialize(resp).Some?
    else InRange(st.code) && Utf8(st.message) && SerializeReplyHeader(st).Some?
  }

  /** A request that does not parse: the client is told so. */
  lemma ParseFailureArrives<Resp(!new)>(svcs: seq<Service>, respCodec: R.Codec<Resp>, received: Message)
    requires Outcome(svcs, received) == (ParseFailed(), "")
    ensures ToldOnly(ReplyTo(svcs, received), respCodec, ParseFailed())
  {
    PlainView(respCodec, ParseFailed(), "");
    forall answer | Delivers(ReplyTo(svcs, received).value, answer)
      ensures ClientReads(respCodec, answer) == (ParseFailed(), R.Untouched)
    {
      ClientReadsReply(respCodec, ParseFailed(), "", answer);
    }
  }

  lemma AnswerLikeDirect<Req, Resp(!new)>(
    svcs: seq<Service>, respCodec: R.Codec<Resp>, user: Handler<Req, Resp>, asked: Req, received: Message)
    requires R.Lossless(respCodec) && Outcome(svcs, received) == Sent(respCodec, user(asked).0, user(asked).1)
    ensures LikeDirect(ReplyTo(svcs, received), respCodec, user, asked) <==> Presentable(respCodec, user, asked)
  {
    var reply := ReplyTo(svcs, received);
    ReplyArrives(svcs, respCodec, user(asked).0, user(asked).1, received);
    if reply.Some? {
      DirectOrTold(respCodec, user, asked);
      assert Delivers(reply.value, reply.value);
    }
  }

  /** Transparency, over a faithful transport, for the client of a url that routes to its service. If the
      url travels and empty bytes or the serialized request parse to some request asked, which is the
      client's own if that serializes, the client is told what calling the handler directly on asked
      tells, if and only if that outcome can be sent. If nothing parses it is told so, and if the url
      does not travel it is told what the middleware makes of the url it read. */
  lemma Transparent<Req(!new), Resp(!new)>(
    svcs: seq<Service>, k: nat, method_: Bytes, reqCodec: R.Codec<Req>, respCodec: R.Codec<Resp>,
    user: Handler<Req, Resp>, req: Req, received: Message)
    requires k < |svcs| && (forall n :: n in Names(svcs) ==> SlashFree(n))
    requires (forall i :: 0 <= i < k ==> !(svcs[i].name <= svcs[k].name))
    requires var url := UrlOf(svcs[k].name, method_);
      Serves(svcs[k], url, reqCodec, respCodec, user) && Delivers(ClientMessage(reqCodec, url, req), received)
    requires R.Lossless(reqCodec) && R.Lossless(respCodec)
    ensures reqCodec.serialize(req).Some? ==> Asked(reqCodec, req) == Some(req)
    ensures var url, reply := UrlOf(svcs[k].name, method_), ReplyTo(svcs, received);
      if !Travels(url) then ToldOnly(reply, respCodec, Refusal(UrlRead(url)))
      else
        match Asked(reqCodec, req)
        case None => ToldOnly(reply, respCodec, ParseFailed())
        case Some(asked) => LikeDirect(reply, respCodec, user, asked) <==> Presentable(respCodec, user, asked)
  {
    var url := UrlOf(svcs[k].name, method_);
    if reqCodec.serialize(req).Some? {
      AskedAsMeant(reqCodec, req);
    }
    if Travels(url) {
      RequestArrives(svcs, k, method_, reqCodec, respCodec, user, req, received);
      match Asked(reqCodec, req)
      case None => ParseFailureArrives(svcs, respCodec, received);
      case Some(asked) => AnswerLikeDirect(svcs, respCodec, user, asked, received);
    } else {
      RefusalsArrive(svcs, url, reqCodec, respCodec, req, received);
    }
  }

  /** What the client is told is what a direct call tells exactly when the outcome can be sent, provided the
      header serializes. */
  lemma DirectOrTold<Req, Resp(!new)>(respCodec: R.Codec<Resp>, user: Handler<Req, Resp>, req: Req)
    requires var st := user(req).0; st.code == OK || SerializeReplyHeader(st).Some?
    ensures Told(respCodec, user(req).0, user(req).1) == Direct(user, req) <==> Presentable(respCodec, user, req)
  {
    if !Utf8(user(req).0.message) {
      NotAscii(user(req).0.message);
    }
  }
}
