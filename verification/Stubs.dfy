/** Generated stubs against generated services: a stub's call is a call of the user's own method. */
module Stubs {
  import opened Options
  import opened Statuses
  import opened Encodings
  import opened Transports
  import opened BeginEnd
  import opened RpcV1
  import opened Routes

  /** The number of methods before service k. */
  function Offset(svcs: seq<Service>, k: nat): nat
    requires k <= |svcs|
  {
    if k == 0 then 0 else Offset(svcs, k - 1) + |svcs[k - 1].methods|
  }

  /** The router's answer as an index into all methods of all services. */
  function RouteIndex(svcs: seq<Service>, url: Bytes): Option<nat> {
    match RouteFrom(svcs, url, 0)
    case NotFound(_) => None
    case Routed(k, j) => if k < |svcs| then Some(Offset(svcs, k) + j) else None
  }

  lemma {:induction false} OffsetsAscend(svcs: seq<Service>, k: nat, i: nat)
    requires k <= i <= |svcs|
    ensures Offset(svcs, k) <= Offset(svcs, i)
    ensures k < i ==> Offset(svcs, k) + |svcs[k].methods| <= Offset(svcs, i)
    decreases i
  {
    if k == i {
    } else {
      OffsetsAscend(svcs, k, i - 1);
    }
  }

  /** Different methods have different indices. */
  lemma IndexDecodes(svcs: seq<Service>, k: nat, j: nat, k': nat, j': nat)
    requires k < |svcs| && k' < |svcs| && j < |svcs[k].methods| && j' < |svcs[k'].methods|
    ensures Offset(svcs, k) + j < Offset(svcs, |svcs|)
    ensures Offset(svcs, k) + j == Offset(svcs, k') + j' <==> k == k' && j == j'
  {
    OffsetsAscend(svcs, k, |svcs|);
    if k < k' {
      OffsetsAscend(svcs, k, k');
    } else if k' < k {
      OffsetsAscend(svcs, k', k);
    }
  }

  /** A server made of generated services: the router in front of one operation per method. */
  ghost predicate Hosts(server: Server, svcs: seq<Service>) {
    && |server.ops| == Offset(svcs, |svcs|)
    && forall url :: server.route(url) == RouteIndex(svcs, url)
  }

  /** The operation behind method j of service k is the user's pair for that method. */
  ghost predicate Implements<Req, Resp>(
    server: Server, svcs: seq<Service>, k: nat, j: nat, reqCodec: Codec<Req>, respCodec: Codec<Resp>,
      user: Method<Req, Resp>)
    requires Hosts(server, svcs) && k < |svcs| && j < |svcs[k].methods|
  {
    IndexDecodes(svcs, k, j, k, j);
    server.ops[Offset(svcs, k) + j] == Lift(reqCodec, respCodec, user)
  }

  /** The url a client stub sends is served by the user's pair for exactly that method. */
  lemma StubReachesItsMethod<Req, Resp>(
    server: Server, svcs: seq<Service>, k: nat, j: nat, reqCodec: Codec<Req>, respCodec: Codec<Resp>,
      user: Method<Req, Resp>)
    requires Registered(svcs) && Hosts(server, svcs) && k < |svcs| && j < |svcs[k].methods|
    requires Implements(server, svcs, k, j, reqCodec, respCodec, user)
    ensures Serves(server, Url(svcs[k], svcs[k].methods[j].name), reqCodec, respCodec, user)
  {
    RouteIsExact(svcs, Url(svcs[k], svcs[k].methods[j].name), 0, k, j);
    IndexDecodes(svcs, k, j, k, j);
  }

  /** A stub's url can always travel. */
  lemma UrlAddressable(svc: Service, m: Bytes)
    requires Declared(svc) && Identifier(m)
    ensures Addressable(Url(svc, m))
  {
    UrlLetters(svc, m);
    AsciiIsUtf8(Url(svc, m));
  }

  /** End to end, from the stub of method j of service k: whatever the order of registration and the
      interleaving, the caller is told what calling the user's two operations directly tells, exactly
      when their outcome can be sent. */
  lemma GeneratedCallIsTransparent<Req(!new), Resp(!new)>(
    server: Server, svcs: seq<Service>, k: nat, j: nat, reqCodec: Codec<Req>, respCodec: Codec<Resp>,
      user: Method<Req, Resp>,
    req: Req, sent: Message, received: Message, timeout: nat)
    requires Registered(svcs) && Hosts(server, svcs) && k < |svcs| && j < |svcs[k].methods|
    requires Implements(server, svcs, k, j, reqCodec, respCodec, user) && Lossless(reqCodec) && Lossless(respCodec)
    requires ClientRequest(reqCodec, Url(svcs[k], svcs[k].methods[j].name), req) == Ok(sent) && Delivers(sent, received)
    requires ErrorsFail(user, req, timeout)
    ensures forall calls, steps, s :: Handled(server, received, timeout, calls, steps, s) ==>
      && s.fires == 1 && s.sound
      && (LikeDirect(Reply(server, ReadPayload(s.payload)), respCodec, user, req, timeout) <==>
        Presentable(respCodec, user, req, timeout))
  {
    var url := Url(svcs[k], svcs[k].methods[j].name);
    StubReachesItsMethod(server, svcs, k, j, reqCodec, respCodec, user);
    UrlAddressable(svcs[k], svcs[k].methods[j].name);
    Transparent(server, url, reqCodec, respCodec, user, req, sent, received, timeout);
  }
}
