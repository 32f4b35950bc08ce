/** The v2 server: services tried in order, each status written into the reply's header. */
module Middlewares {
  import opened Options
  import opened Statuses
  import opened Headers
  import opened Encodings
  import opened Transports
  import opened Parsing
  import opened PrefixRouting

  const BAD_REQUEST_HEADER: Text := "cannot parse request header"
  const NO_URL: Text := "url is empty"
  const BAD_URL: Text := "invalid url"
  const UNKNOWN_URL: Text := "url not found"

  /** A service: its name, and its reaction to a url and a payload. */
  datatype Service = Service(name: Bytes, execute: (Bytes, Bytes) -> (AbslStatus, Bytes))

  function Names(svcs: seq<Service>): (names: seq<Bytes>)
    ensures |names| == |svcs|
  {
    seq(|svcs|, i requires 0 <= i < |svcs| => svcs[i].name)
  }

  function Refuse(code: int, message: Bytes): (AbslStatus, Bytes)
    requires Int32(code) && code != OK
  {
    (Raw(code, message), "")
  }

  function Unreadable(): AbslStatus {
    Raw(INVALID_ARGUMENT, BAD_REQUEST_HEADER)
  }

  function Dispatch(svcs: seq<Service>, url: Bytes, payload: Bytes): (AbslStatus, Bytes)
    requires url != ""
  {
    match FirstPrefix(Names(svcs), url[1..], 0)
    case None => Refuse(UNIMPLEMENTED, UNKNOWN_URL)
    case Some(k) => if k < |svcs| then svcs[k].execute(url, payload) else Refuse(UNIMPLEMENTED, UNKNOWN_URL)
  }

  /** The status of a request and the reply's body. */
  function Outcome(svcs: seq<Service>, req: Message): (AbslStatus, Bytes) {
    match DeserializeRequest(HeaderOf(req))
    case None => (Unreadable(), "")
    case Some(url) =>
      if url == "" then Refuse(INVALID_ARGUMENT, NO_URL)
      else if url[0] != '/' then Refuse(INVALID_ARGUMENT, BAD_URL)
      else Dispatch(svcs, url, BodyOf(req))
  }

  /** The reply; None where the assert that the header serializes fails. */
  function ReplyTo(svcs: seq<Service>, req: Message): Option<Message> {
    var (st, body) := Outcome(svcs, req);
    match SerializeReplyHeader(st)
    case None => None
    case Some(header) => Some(Message(Some(header), [body]))
  }

  class Middleware {
    var svcVec: seq<Service>

    constructor ()
      ensures svcVec == []
    {
      svcVec := [];
    }

    method AddService(svc: Service)
      modifies this
      ensures svcVec == old(svcVec) + [svc]
    {
      svcVec := svcVec + [svc];
    }

    method TryServices(url: Bytes, payload: Bytes) returns (st: AbslStatus, resp: Bytes)
      requires url != ""
      ensures (st, resp) == Dispatch(svcVec, url, payload)
    {
      for k := 0 to |svcVec|
        invariant FirstPrefix(Names(svcVec), url[1..], 0) == FirstPrefix(Names(svcVec), url[1..], k)
      {
        if svcVec[k].name <= url[1..] {
          var answer := svcVec[k].execute(url, payload);
          return answer.0, answer.1;
        }
      }
      st, resp := Raw(UNIMPLEMENTED, UNKNOWN_URL), "";
    }

    method ExecuteInner(req: Message) returns (st: AbslStatus, resp: Bytes)
      ensures (st, resp) == Outcome(svcVec, req)
    {
      resp := "";
      var parsed := DeserializeRequest(HeaderOf(req));
      if parsed.None? {
        return Unreadable(), resp;
      }
      var url := parsed.value;
      if |url| == 0 {
        return Raw(INVALID_ARGUMENT, NO_URL), resp;
      }
      if url[0] != '/' {
        return Raw(INVALID_ARGUMENT, BAD_URL), resp;
      }
      var payload := FabricMessage.GetBody(req);
      st, resp := TryServices(url, payload);
    }

    method Execute(req: Message) returns (reply: Option<Message>)
      ensures reply == ReplyTo(svcVec, req)
    {
      var st, resp := ExecuteInner(req);
      var header := SerializeReplyHeader(st);
      reply := if header.None? then None else Some(Message(header, [resp]));
    }
  }
}
