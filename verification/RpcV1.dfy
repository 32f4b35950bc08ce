/** A v1 call end to end: client helpers, router, begin and end operations, and the reply. */
module RpcV1 {
  import opened Options
  import opened Statuses
  import opened Headers
  import opened Encodings
  import opened Transports
  import opened BeginEnd

  // The messages of client and server.
  const CANNOT_PARSE_BODY: Text := "cannot parse body"
  const NO_REQUEST_HEADER: Text := Words(["Client cannot ", "serialize ", "request header."])
  const NO_REQUEST_BODY: Text := Words(["Client cannot ", "serialize ", "request body."])
  const BEGIN_FAILED: Text := "BeginRequest failed"
  const END_FAILED: Text := "EndRequest failed"
  const EMPTY_REPLY_HEADER: Text := "Server returned empty header"
  const BAD_REPLY_BODY: Text := "Server returned bad body"
  const BAD_REPLY_HEADER: Text := "Server returned bad header"
  const EMPTY_HEADER: Text := "fabric rpc header is empty"
  const BAD_HEADER: Text := "Cannot parse fabric rpc header"
  const NO_REPLY_BODY: Text := Words(["Server cannot ", "serialize body."])

  datatype Result<+T> = Ok(value: T) | Err(status: Status)

  /** A message type's serialization; it may refuse, for instance a message that is too long. */
  datatype Codec<!M> = Codec(serialize: M -> Option<Bytes>, parse: Bytes -> Option<M>)

  ghost predicate Lossless<M(!new)>(codec: Codec<M>) {
    forall m :: codec.serialize(m).Some? ==> codec.parse(codec.serialize(m).value) == Some(m)
  }

  /** The user's pair of operations; contexts are numbered. */
  datatype Method<!Req, !Resp> = Method(begin: (Req, nat) -> Result<nat>, end: nat -> Result<Resp>)

  /** The same pair on byte strings, as the handler invokes it. */
  datatype Operation = Operation(begin: (Bytes, nat) -> Result<nat>, end: nat -> Result<Bytes>)

  function BeginOperation<Req, Resp>(
      codec: Codec<Req>, user: Method<Req, Resp>, body: Bytes, timeout: nat): Result<nat> {
    match codec.parse(body)
    case None => Err(Status(INVALID_ARGUMENT, CANNOT_PARSE_BODY))
    case Some(req) => user.begin(req, timeout)
  }

  function EndOperation<Req, Resp>(codec: Codec<Resp>, user: Method<Req, Resp>, ctx: nat): Result<Bytes> {
    match user.end(ctx)
    case Err(status) => Err(status)
    case Ok(resp) =>
      match codec.serialize(resp)
      case None => Err(NoBody())
      case Some(body) => Ok(body)
  }

  function Lift<Req, Resp>(reqCodec: Codec<Req>, respCodec: Codec<Resp>, user: Method<Req, Resp>): Operation {
    Operation((body: Bytes, timeout: nat) => BeginOperation(reqCodec, user, body, timeout),
      (ctx: nat) => EndOperation(respCodec, user, ctx))
  }

  /** The registered operations and the route from urls to them. */
  datatype Server = Server(ops: seq<Operation>, route: Bytes -> Option<nat>)

  /** What Begin makes of a message: the request of the begin/end protocol. The calls are the user's
      invocations of the callback; they exist only if the user's own begin was reached. */
  function Arrived(server: Server, m: Message, timeout: nat, calls: seq<Ctx>): Request {
    if HeaderOf(m) == "" then Rejected(EmptyHeader())
    else
      match DeserializeRequest(HeaderOf(m))
      case None => Rejected(BadHeader())
      case Some(url) =>
        var target := server.route(url);
        if target.None? || target.value >= |server.ops| then Rejected(Status(NOT_FOUND, METHOD_NOT_FOUND + url))
        else
          match server.ops[target.value].begin(BodyOf(m), timeout)
          case Err(status) => Routed(target.value, User(BeginFailed(status), calls))
          case Ok(ctx) => Routed(target.value, User(Started(UserCtx(ctx)), calls))
  }

  function ErrorReply(status: Status): Option<Message> {
    if !Int32(status.code) then None
    else
      match SerializeReply(ReplyHeader(status.code, status.message))
      case None => None
      case Some(header) => Some(Message(Some(header), [""]))
  }

  /** End's reply to what it reads from the payload; None where one of its asserts fails: a missing
      payload, an end status without message, or a header that does not serialize. */
  function Reply(server: Server, view: EndView): Option<Message> {
    match view
    case AssertFails => None
    case SendError(status) => ErrorReply(status)
    case RunEnd(op, ctx) =>
      if op >= |server.ops| || ctx.DummyCtx? then None
      else
        match server.ops[op].end(ctx.id)
        case Err(status) => if status.message == "" then None else ErrorReply(status)
        case Ok(body) =>
          match SerializeReply(ReplyHeader(SUCCESS.code, SUCCESS.message))
          case None => None
          case Some(header) => Some(Message(Some(header), [body]))
  }

  /** The client's request message. */
  function ClientRequest<Req>(codec: Codec<Req>, url: Bytes, req: Req): Result<Message> {
    match SerializeRequest(url)
    case None => Err(Status(INTERNAL, NO_REQUEST_HEADER))
    case Some(header) =>
      match codec.serialize(req)
      case None => Err(Status(INTERNAL, NO_REQUEST_BODY))
      case Some(body) => Ok(Message(Some(header), [body]))
  }

  function Failed(hr: int): bool {
    hr < 0
  }

  /** The status of ExecClientBegin, given what the transport's BeginRequest returns. */
  function ExecClientBegin<Req>(codec: Codec<Req>, url: Bytes, req: Req, hr: int): Status {
    match ClientRequest(codec, url, req)
    case Err(status) => status
    case Ok(_) => if Failed(hr) then Status(FABRIC_TRANSPORT_ERROR, BEGIN_FAILED, hr) else SUCCESS
  }

  /** What happened to the caller's response object. */
  datatype Response<+M> = Untouched | Parsed(value: M) | Garbled

  function ExecClientEnd<Resp>(codec: Codec<Resp>, hr: int, reply: Message): (Status, Response<Resp>) {
    if hr != 0 then (Status(FABRIC_TRANSPORT_ERROR, END_FAILED, hr), Untouched)
    else if HeaderOf(reply) == "" then (Status(UNKNOWN, EMPTY_REPLY_HEADER), Untouched)
    else
      match DeserializeReply(HeaderOf(reply))
      case None => (UnreadableReply(), Untouched)
      case Some(h) =>
        if h.code != 0 then (Status(h.code, h.message), Untouched)
        else
          match codec.parse(BodyOf(reply))
          case None => (Status(UNKNOWN, BAD_REPLY_BODY), Garbled)
          case Some(resp) => (SUCCESS, Parsed(resp))
  }

  /** Calling the user's two operations directly, with no transport between. */
  function Direct<Req, Resp>(user: Method<Req, Resp>, req: Req, timeout: nat): (Status, Response<Resp>) {
    match user.begin(req, timeout)
    case Err(status) => (Status(status.code, status.message), Untouched)
    case Ok(ctx) =>
      match user.end(ctx)
      case Err(status) => (Status(status.code, status.message), Untouched)
      case Ok(resp) => (SUCCESS, Parsed(resp))
  }

  // ----- The reply, whatever the interleaving -----

  /** The handler's answer to a request does not depend on the schedule: once the transport's callback
      has fired, End replies as if begin and end had run one after the other. */
  lemma ReplyIsScheduleFree(server: Server, req: Request, steps: seq<Step>, s: State)
    requires Proper(req) && HonestRequest(req) && Run(req, steps) == Some(s) && s.fires == 1
    ensures Reply(server, ReadPayload(s.payload)) == Reply(server, Expected(req))
  {
    RaceSafe(req, steps, s);
  }

  /** Failing statuses with int32 codes and UTF-8 messages short enough to be sent. */
  predicate Sendable(status: Status) {
    && status.Failed() && Int32(status.code) && Utf8(status.message)
    && SerializeReply(ReplyHeader(status.code, status.message)).Some?
  }

  /** An error reply has an empty body, and the client reads back its code and message and leaves the
      response alone. */
  lemma ErrorsArrive<Resp>(codec: Codec<Resp>, status: Status, sent: Message, received: Message)
    requires Sendable(status) && ErrorReply(status) == Some(sent) && Delivers(sent, received)
    ensures BodyOf(sent) == ""
    ensures ExecClientEnd(codec, 0, received) == (Status(status.code, status.message), Untouched)
  {
    var h := ReplyHeader(status.code, status.message);
    ReplyRoundTrip(h);
    EmptyOnlyForDefaults("", h);
    ConcatOne("");
  }

  /** A successful reply brings the response back. */
  lemma ResponsesArrive<Resp(!new)>(codec: Codec<Resp>, resp: Resp, received: Message)
    requires Lossless(codec) && codec.serialize(resp).Some?
    requires var header := SerializeReply(ReplyHeader(SUCCESS.code, SUCCESS.message));
      header.Some? && Delivers(Message(header, [codec.serialize(resp).value]), received)
    ensures ExecClientEnd(codec, 0, received) == (SUCCESS, Parsed(resp))
  {
    var h := ReplyHeader(SUCCESS.code, SUCCESS.message);
    ReplyRoundTrip(h);
    EmptyOnlyForDefaults("", h);
    AsciiIsUtf8("OK");
    var body := codec.serialize(resp).value;
    ConcatOne(body);
  }

  lemma SuccessSerializes()
    ensures SerializeReply(ReplyHeader(SUCCESS.code, SUCCESS.message)).Some?
  {
    var fields := ReplyFields(ReplyHeader(SUCCESS.code, SUCCESS.message));
    assert fields == [Block(2, "OK")];
    assert EncodeAll(fields) == Encode(fields[0]) + EncodeAll([]);
  }

  /** An operation that reports an error reports a failing status. */
  ghost predicate ErrorsFail<Req, Resp>(user: Method<Req, Resp>, req: Req, timeout: nat) {
    match user.begin(req, timeout)
    case Err(status) => status.Failed()
    case Ok(ctx) => user.end(ctx).Err? ==> user.end(ctx).status.Failed()
  }

  /** What a method must grant for its answers to travel: failing statuses that can be sent, end
      statuses with a message, responses that serialize. */
  ghost predicate Presentable<Req, Resp>(respCodec: Codec<Resp>, user: Method<Req, Resp>, req: Req, timeout: nat) {
    match user.begin(req, timeout)
    case Err(status) => Sendable(status)
    case Ok(ctx) =>
      match user.end(ctx)
      case Err(status) => Sendable(status) && status.message != ""
      case Ok(resp) => respCodec.serialize(resp).Some?
  }

  /** The user's method is the one the router finds for url. */
  ghost predicate Serves<Req, Resp>(
      server: Server, url: Bytes, reqCodec: Codec<Req>, respCodec: Codec<Resp>, user: Method<Req, Resp>) {
    && server.route(url).Some? && server.route(url).value < |server.ops|
    && server.ops[server.route(url).value] == Lift(reqCodec, respCodec, user)
  }

  /** Urls that reach the router: the empty url makes an empty header, and a url must be UTF-8. */
  predicate Addressable(url: Bytes) {
    url != "" && Utf8(url)
  }

  function EmptyHeader(): Status {
    Status(INVALID_ARGUMENT, EMPTY_HEADER)
  }

  function BadHeader(): Status {
    Status(INVALID_ARGUMENT, BAD_HEADER)
  }

  function HeaderRefusal(url: Bytes): Status {
    if url == "" then EmptyHeader() else BadHeader()
  }

  /** The handler sees the request the client made. */
  lemma RequestArrives<Req(!new), Resp>(
    server: Server, url: Bytes, reqCodec: Codec<Req>, respCodec: Codec<Resp>, user: Method<Req, Resp>,
    req: Req, sent: Message, received: Message, timeout: nat, calls: seq<Ctx>)
    requires Lossless(reqCodec) && Serves(server, url, reqCodec, respCodec, user) && Addressable(url)
    requires ClientRequest(reqCodec, url, req) == Ok(sent) && Delivers(sent, received)
    ensures Arrived(server, received, timeout, calls) == Routed(server.route(url).value,
      match user.begin(req, timeout)
      case Err(status) => User(BeginFailed(status), calls)
      case Ok(ctx) => User(Started(UserCtx(ctx)), calls))
  {
    RequestRoundTrip(url);
    EmptyOnlyForDefaults(url, ReplyHeader(0, ""));
    var body := reqCodec.serialize(req).value;
    ConcatOne(body);
  }

  /** Whatever is registered, it does not see a request whose url cannot travel. */
  lemma RequestRefused<Req>(
    server: Server, url: Bytes, reqCodec: Codec<Req>, req: Req, sent: Message, received: Message, timeout: nat,
      calls: seq<Ctx>)
    requires ClientRequest(reqCodec, url, req) == Ok(sent) && Delivers(sent, received) && !Addressable(url)
    ensures Arrived(server, received, timeout, calls) == Rejected(HeaderRefusal(url))
  {
    RequestRoundTrip(url);
    EmptyOnlyForDefaults(url, ReplyHeader(0, ""));
  }

  /** The reply to a routed request, from the user's operations. */
  lemma ReplyFromUser<Req, Resp>(
    server: Server, url: Bytes, reqCodec: Codec<Req>, respCodec: Codec<Resp>, user: Method<Req, Resp>, ctx: nat)
    requires Serves(server, url, reqCodec, respCodec, user)
    ensures Reply(server, RunEnd(server.route(url).value, UserCtx(ctx))) ==
      match EndOperation(respCodec, user, ctx)
      case Err(status) => if status.message == "" then None else ErrorReply(status)
      case Ok(body) =>
        match SerializeReply(ReplyHeader(SUCCESS.code, SUCCESS.message))
        case None => None
        case Some(header) => Some(Message(Some(header), [body]))
  {
  }

  /** The client is told exactly what a direct call of the user's two operations tells. */
  ghost predicate LikeDirect<Req, Resp(!new)>(
      reply: Option<Message>, respCodec: Codec<Resp>, user: Method<Req, Resp>, req: Req, timeout: nat) {
    reply.Some? && forall answer ::
      Delivers(reply.value, answer) ==> ExecClientEnd(respCodec, 0, answer) == Direct(user, req, timeout)
  }

  lemma PresentableIsLikeDirect<Req, Resp(!new)>(
    server: Server, url: Bytes, reqCodec: Codec<Req>, respCodec: Codec<Resp>, user: Method<Req, Resp>, req: Req,
      timeout: nat, view: EndView)
    requires Lossless(respCodec) && Serves(server, url, reqCodec, respCodec, user)
    requires Presentable(respCodec, user, req, timeout)
    requires view == match user.begin(req, timeout)
      case Err(status) => SendError(status)
      case Ok(ctx) => RunEnd(server.route(url).value, UserCtx(ctx))
    ensures LikeDirect(Reply(server, view), respCodec, user, req, timeout)
  {
    SuccessSerializes();
    var reply := Reply(server, view);
    if user.begin(req, timeout).Ok? {
      ReplyFromUser(server, url, reqCodec, respCodec, user, user.begin(req, timeout).value);
    }
    forall answer | Delivers(reply.value, answer)
      ensures ExecClientEnd(respCodec, 0, answer) == Direct(user, req, timeout) {
      match user.begin(req, timeout) {
        case Err(status) => ErrorsArrive(respCodec, status, reply.value, answer);
        case Ok(ctx) =>
          match user.end(ctx) {
            case Err(status) => ErrorsArrive(respCodec, status, reply.value, answer);
            case Ok(resp) => ResponsesArrive(respCodec, resp, answer);
          }
      }
    }
  }

  lemma OnlyPresentableIsLikeDirect<Req, Resp(!new)>(
    server: Server, url: Bytes, reqCodec: Codec<Req>, respCodec: Codec<Resp>, user: Method<Req, Resp>, req: Req,
      timeout: nat, view: EndView)
    requires Serves(server, url, reqCodec, respCodec, user) && !Presentable(respCodec, user, req, timeout)
    requires ErrorsFail(user, req, timeout)
    requires view == match user.begin(req, timeout)
      case Err(status) => SendError(status)
      case Ok(ctx) => RunEnd(server.route(url).value, UserCtx(ctx))
    ensures !LikeDirect(Reply(server, view), respCodec, user, req, timeout)
  {
    var reply := Reply(server, view);
    if reply.Some? {
      assert Delivers(reply.value, reply.value);
    }
    match user.begin(req, timeout)
    case Err(status) => UnreadableDiffers(respCodec, status, reply);
    case Ok(ctx) =>
      ReplyFromUser(server, url, reqCodec, respCodec, user, ctx);
      match user.end(ctx) {
        case Err(status) =>
          if !Sendable(status) {
            UnreadableDiffers(respCodec, status, reply);
          }
        case Ok(_) =>
          OwnStatusesSendable();
          ErrorsArrive(respCodec, NoBody(), reply.value, reply.value);
      }
  }

  /** A status that cannot be sent is answered by a failed assert, or by a message the client cannot read
      and reports in words of its own. */
  lemma UnreadableDiffers<Resp>(codec: Codec<Resp>, status: Status, reply: Option<Message>)
    requires status.Failed() && !Sendable(status) && (reply == None || reply == ErrorReply(status))
    ensures reply.Some? ==> ExecClientEnd(codec, 0, reply.value) == (UnreadableReply(), Untouched)
    ensures reply.Some? ==> status.message != UnreadableReply().message
  {
    if reply.Some? {
      if Ascii(status.message) {
        AsciiIsUtf8(status.message);
      }
      ReplyRoundTrip(ReplyHeader(status.code, status.message));
      EmptyOnlyForDefaults("", ReplyHeader(status.code, status.message));
    }
  }

  function UnreadableReply(): Status {
    Status(UNKNOWN, BAD_REPLY_HEADER)
  }

  function NoBody(): Status {
    Status(INTERNAL, NO_REPLY_BODY)
  }

  /** A complete handling of message m: the user keeps the contract, and steps is any interleaving. */
  ghost predicate Handled(server: Server, m: Message, timeout: nat, calls: seq<Ctx>, steps: seq<Step>, s: State) {
    var arrived := Arrived(server, m, timeout, calls);
    HonestRequest(arrived) && Run(arrived, steps) == Some(s) && Complete(arrived, s)
  }

  /** Transparency: over a faithful transport and lossless codecs, whatever the interleaving of Begin with
      the user's callback, the transport's callback fires once without a failed assert. If the url can
      travel, the client is told exactly what calling the user's two operations directly tells, if and
      only if their outcome can be sent at all; otherwise it is told that the header was refused. */
  lemma Transparent<Req(!new), Resp(!new)>(
    server: Server, url: Bytes, reqCodec: Codec<Req>, respCodec: Codec<Resp>, user: Method<Req, Resp>,
    req: Req, sent: Message, received: Message, timeout: nat)
    requires Lossless(reqCodec) && Lossless(respCodec) && Serves(server, url, reqCodec, respCodec, user)
    requires ClientRequest(reqCodec, url, req) == Ok(sent) && Delivers(sent, received)
    requires ErrorsFail(user, req, timeout)
    ensures forall calls, steps, s :: Handled(server, received, timeout, calls, steps, s) ==>
      && s.fires == 1 && s.sound
      && var reply := Reply(server, ReadPayload(s.payload));
         if Addressable(url) then LikeDirect(reply, respCodec, user, req, timeout) <==>
           Presentable(respCodec, user, req, timeout)
         else Told(reply, respCodec, HeaderRefusal(url))
  {
    forall calls, steps, s | Handled(server, received, timeout, calls, steps, s)
      ensures s.fires == 1 && s.sound
      ensures var reply := Reply(server, ReadPayload(s.payload));
        if Addressable(url) then LikeDirect(reply, respCodec, user, req, timeout) <==>
          Presentable(respCodec, user, req, timeout)
        else Told(reply, respCodec, HeaderRefusal(url))
    {
      var arrived := Arrived(server, received, timeout, calls);
      if Addressable(url) {
        RequestArrives(server, url, reqCodec, respCodec, user, req, sent, received, timeout, calls);
        RaceSafe(arrived, steps, s);
        if Presentable(respCodec, user, req, timeout) {
          PresentableIsLikeDirect(server, url, reqCodec, respCodec, user, req, timeout, Expected(arrived));
        } else {
          OnlyPresentableIsLikeDirect(server, url, reqCodec, respCodec, user, req, timeout, Expected(arrived));
        }
      } else {
        RequestRefused(server, url, reqCodec, req, sent, received, timeout, calls);
        RaceSafe(arrived, steps, s);
        RefusalSendable(url);
        RejectionsArrive(server, respCodec, HeaderRefusal(url));
      }
    }
  }

  /** The client is told this status, by any message that delivers the reply, and its response is left alone. */
  ghost predicate Told<Resp(!new)>(reply: Option<Message>, respCodec: Codec<Resp>, status: Status) {
    reply.Some? && forall answer ::
      Delivers(reply.value, answer) ==> ExecClientEnd(respCodec, 0, answer) == (status, Untouched)
  }

  lemma RejectionsArrive<Resp(!new)>(server: Server, respCodec: Codec<Resp>, status: Status)
    requires Sendable(status) && status.transportCode == 0
    ensures Told(Reply(server, SendError(status)), respCodec, status)
  {
    forall answer | Delivers(ErrorReply(status).value, answer)
      ensures ExecClientEnd(respCodec, 0, answer) == (status, Untouched) {
      ErrorsArrive(respCodec, status, ErrorReply(status).value, answer);
    }
  }

  lemma EmptyHeaderSendable()
    ensures Sendable(EmptyHeader())
  {
    AsciiIsUtf8(EmptyHeader().message);
    ShortErrorSerializes(EmptyHeader());
  }

  lemma BadHeaderSendable()
    ensures Sendable(BadHeader())
  {
    AsciiIsUtf8(BadHeader().message);
    ShortErrorSerializes(BadHeader());
  }

  lemma RefusalSendable(url: Bytes)
    ensures Sendable(HeaderRefusal(url))
  {
    if url == "" {
      EmptyHeaderSendable();
    } else {
      BadHeaderSendable();
    }
  }

  lemma OwnStatusesSendable()
    ensures Sendable(NoBody())
  {
    AsciiIsUtf8(NoBody().message);
    ShortErrorSerializes(NoBody());
  }

  /** The empty url, and a url that is not UTF-8: the server rejects it whatever is registered, and the
      client is told so. */
  lemma UnaddressableRejected<Req, Resp(!new)>(
    server: Server, url: Bytes, reqCodec: Codec<Req>, respCodec: Codec<Resp>, req: Req, sent: Message,
      received: Message,
    timeout: nat, calls: seq<Ctx>)
    requires ClientRequest(reqCodec, url, req) == Ok(sent) && Delivers(sent, received) && !Addressable(url)
    ensures Told(Reply(server, Expected(Arrived(server, received, timeout, calls))), respCodec, HeaderRefusal(url))
  {
    RequestRefused(server, url, reqCodec, req, sent, received, timeout, calls);
    RefusalSendable(url);
    RejectionsArrive(server, respCodec, HeaderRefusal(url));
  }

  /** A url that arrives but that no service serves: the client is told so, with the url. */
  lemma UnroutedRejected<Req, Resp(!new)>(
    server: Server, url: Bytes, reqCodec: Codec<Req>, respCodec: Codec<Resp>, req: Req, sent: Message,
      received: Message,
    timeout: nat, calls: seq<Ctx>)
    requires ClientRequest(reqCodec, url, req) == Ok(sent) && Delivers(sent, received) && Addressable(url)
    requires server.route(url).None? && Sendable(Status(NOT_FOUND, METHOD_NOT_FOUND + url))
    ensures Told(Reply(server, Expected(Arrived(server, received, timeout, calls))), respCodec,
      Status(NOT_FOUND, METHOD_NOT_FOUND + url))
  {
    RequestRoundTrip(url);
    EmptyOnlyForDefaults(url, ReplyHeader(0, ""));
    RejectionsArrive(server, respCodec, Status(NOT_FOUND, METHOD_NOT_FOUND + url));
  }

  /** An end status without a message fails End's assert, so there is no reply at all. */
  lemma SilentEndFails(server: Server, op: nat, ctx: nat, code: int)
    requires op < |server.ops| && server.ops[op].end(ctx) == Err(Status(code, ""))
    ensures Reply(server, RunEnd(op, UserCtx(ctx))) == None
  {
  }

  /** Begin tells success exactly when header and request serialize and BeginRequest does not fail; a
      failure names its stage, and only a failing BeginRequest brings a transport code. */
  lemma BeginTells<Req>(codec: Codec<Req>, url: Bytes, req: Req, hr: int)
    ensures var status := ExecClientBegin(codec, url, req, hr);
      && (status == SUCCESS <==> SerializeRequest(url).Some? && codec.serialize(req).Some? && hr >= 0)
      && (status.code == FABRIC_TRANSPORT_ERROR <==>
        SerializeRequest(url).Some? && codec.serialize(req).Some? && hr < 0)
      && (status.code == INTERNAL <==> SerializeRequest(url).None? || codec.serialize(req).None?)
      && status.transportCode == if status.code == FABRIC_TRANSPORT_ERROR then hr else 0
  {
  }

  /** The two halves judge the transport's result differently: one that is a success but not S_OK passes at
      begin and fails at end. */
  lemma EndIsStricter<Req, Resp>(codec: Codec<Req>, url: Bytes, req: Req, respCodec: Codec<Resp>, reply: Message,
      hr: int)
    requires ClientRequest(codec, url, req).Ok? && hr > 0
    ensures ExecClientBegin(codec, url, req, hr) == SUCCESS
    ensures ExecClientEnd(respCodec, hr, reply) == (Status(FABRIC_TRANSPORT_ERROR, END_FAILED, hr), Untouched)
  {
  }

  lemma ShortErrorSerializes(status: Status)
    requires 0 < status.code < 128 && 0 < |status.message| < 128 && Utf8(status.message)
    ensures Sendable(status)
  {
    var h := ReplyHeader(status.code, status.message);
    var code, message := Number(1, status.code), Block(2, status.message);
    assert ReplyFields(h) == [code, message];
    assert EncodeAll([code, message]) == Encode(code) + EncodeAll([message]);
    assert EncodeAll([message]) == Encode(message) + EncodeAll([]);
  }
}
