/** How v2 requests are completed: the stored result, the transport's callback, and End. */
module Completion {
  import opened Options
  import opened Statuses
  import opened Encodings
  import opened Transports
  import opened Parsing
  import opened RpcV2

  const S_OK := 0

  /** The result kept in a request's context. */
  datatype Content = Content(hr: int, reply: Option<Message>)

  /** A request's context; fires counts the calls of the transport's callback. */
  datatype View = View(completed: bool, content: Content, fires: nat)

  /** A new context; its content is indeterminate. */
  function Start(content: Content): View {
    View(false, content, 0)
  }

  /** The assert at the top of complete. */
  predicate Allowed(content: Content) {
    content.hr == S_OK ==> content.reply.Some?
  }

  /** The content is overwritten by every completion; the callback is guarded. */
  function Completed(v: View, content: Content): View {
    View(true, content, if v.completed then v.fires else v.fires + 1)
  }

  /** The message of complete_rpc_error; a header that does not serialize is empty. */
  function ErrorMessage(st: AbslStatus): Message {
    Message(Some(OrEmpty(SerializeReplyHeader(st))), [""])
  }

  /** EndProcessRequest; None where its assert on the reply fails. */
  function End(v: View): Option<Content> {
    if v.content.hr != S_OK then Some(Content(v.content.hr, None))
    else if v.content.reply.None? then None
    else Some(v.content)
  }

  // ----- Any calls on any requests -----

  datatype Call = Answer(request: nat, content: Content) | RpcError(request: nat, st: AbslStatus)

  function ContentOf(call: Call): Content {
    match call
    case Answer(_, content) => content
    case RpcError(_, st) => Content(S_OK, Some(ErrorMessage(st)))
  }

  function Apply(views: seq<View>, call: Call): (r: seq<View>)
    ensures |r| == |views|
  {
    if call.request < |views| then views[call.request := Completed(views[call.request], ContentOf(call))] else views
  }

  function Run(views: seq<View>, calls: seq<Call>): (r: seq<View>)
    ensures |r| == |views|
    decreases |calls|
  {
    if calls == [] then views else Apply(Run(views, calls[..|calls| - 1]), calls[|calls| - 1])
  }

  /** The contents one request was completed with, in order. */
  function CallsOn(calls: seq<Call>, r: nat): seq<Content>
    decreases |calls|
  {
    if calls == [] then []
    else
      var last := calls[|calls| - 1];
      CallsOn(calls[..|calls| - 1], r) + if last.request == r then [ContentOf(last)] else []
  }

  /** Where any calls on any requests leave request r: its callback has fired once if it was completed at
      all and never otherwise, and the last completion's result is kept. */
  lemma {:induction false} FiresOnce(views: seq<View>, calls: seq<Call>, r: nat)
    requires r < |views| && views[r] == Start(views[r].content)
    ensures var mine := CallsOn(calls, r);
      Run(views, calls)[r] == if mine == [] then views[r] else View(true, mine[|mine| - 1], 1)
    decreases |calls|
  {
    if calls == [] {
    } else {
      FiresOnce(views, calls[..|calls| - 1], r);
    }
  }

  /** The callback fires in the very call that first completes the request. */
  lemma FiresAtFirstCall(views: seq<View>, calls: seq<Call>, r: nat, i: nat)
    requires r < |views| && views[r] == Start(views[r].content) && i < |calls|
    ensures Run(views, calls[..i + 1])[r].fires == Run(views, calls[..i])[r].fires + 1 <==>
      calls[i].request == r && CallsOn(calls[..i], r) == []
  {
    FiresOnce(views, calls[..i], r);
    FiresOnce(views, calls[..i + 1], r);
    assert calls[..i + 1][..i] == calls[..i];
  }

  lemma {:induction false} CallsAllowed(calls: seq<Call>, r: nat)
    requires forall call :: call in calls ==> Allowed(ContentOf(call))
    ensures forall c :: c in CallsOn(calls, r) ==> Allowed(c)
    decreases |calls|
  {
    if calls == [] {
    } else {
      CallsAllowed(calls[..|calls| - 1], r);
    }
  }

  /** Whenever End runs after the callback, its assert holds and a result of S_OK has a reply; it is the
      result of the latest completion. */
  lemma EndAfterCallback(views: seq<View>, calls: seq<Call>, r: nat)
    requires r < |views| && views[r] == Start(views[r].content)
    requires (forall call :: call in calls ==> Allowed(ContentOf(call))) && Run(views, calls)[r].fires > 0
    ensures var mine, result := CallsOn(calls, r), End(Run(views, calls)[r]);
      mine != [] && result.Some? && result.value.hr == mine[|mine| - 1].hr
      && (result.value.hr == S_OK ==> result.value.reply.Some? && result.value.reply == mine[|mine| - 1].reply)
  {
    FiresOnce(views, calls, r);
    CallsAllowed(calls, r);
    var mine := CallsOn(calls, r);
    assert mine[|mine| - 1] in mine;
  }

  /** An error completed this way reaches the client's handler as it is, if and only if its header can be
      serialized, its message is UTF-8 and its code is one the client knows. An unknown code arrives as a
      complaint that names it, a message that is not UTF-8 as a parse failure; a header that cannot be
      serialized is empty and reads as success. */
  lemma RpcErrorArrives<Resp>(respCodec: R.Codec<Resp>, st: AbslStatus, answer: Message)
    requires st.code != OK && Delivers(ErrorMessage(st), answer)
    ensures ClientReads(respCodec, answer) == (st, R.Untouched) <==>
      SerializeReplyHeader(st).Some? && Utf8(st.message) && InRange(st.code)
    ensures SerializeReplyHeader(st).Some? && Utf8(st.message) && !InRange(st.code) ==>
      ClientReads(respCodec, answer) == (UnknownCode(st.code), R.Untouched)
    ensures SerializeReplyHeader(st).None? ==> ParseReplyHeader(HeaderOf(answer)).code == OK
    ensures SerializeReplyHeader(st).Some? && !Utf8(st.message) ==>
      ClientReads(respCodec, answer) == (ParseFailed(), R.Untouched)
  {
    if SerializeReplyHeader(st).Some? {
      StatusRoundTrip(st);
    } else {
      StatusRoundTrip(Parsing.Ok());
      HeaderFits(Parsing.Ok());
    }
  }

  // ----- The objects -----

  /** The context, with the record of its completions. */
  class Context {
    var isCompleted: bool
    var hr: int
    var replyMsg: Option<Message>
    ghost var fires: nat
    ghost var initial: Content
    ghost var log: seq<Content>

    ghost function Abstract(): View
      reads this
    {
      View(isCompleted, Content(hr, replyMsg), fires)
    }

    /** The state that the recorded completions lead to. */
    ghost predicate Valid()
      reads this
    {
      Abstract() == if log == [] then Start(initial) else View(true, log[|log| - 1], 1)
    }

    constructor (hr: int)
      ensures Valid() && log == [] && !isCompleted && fires == 0
    {
      isCompleted, this.hr, replyMsg := false, hr, None;
      fires, initial, log := 0, Content(hr, None), [];
    }

    /** The guarded call of the transport's callback. */
    method Complete()
      modifies this`isCompleted, this`fires
      ensures isCompleted && fires == old(fires) + if old(isCompleted) then 0 else 1
    {
      if isCompleted {
        return;
      }
      isCompleted := true;
      fires := fires + 1;
    }
  }

  /** What the acceptor hands out: the connection's id, the message, and the context to complete. */
  class Request {
    const connId: string
    const msg: Message
    const ctx: Context

    constructor (connId: string, msg: Message, ctx: Context)
      ensures this.connId == connId && this.msg == msg && this.ctx == ctx
    {
      this.connId, this.msg, this.ctx := connId, msg, ctx;
    }

    method Complete(hr: int, reply: Option<Message>)
      requires ctx.Valid() && Allowed(Content(hr, reply))
      modifies ctx
      ensures ctx.Valid() && ctx.log == old(ctx.log) + [Content(hr, reply)] && ctx.initial == old(ctx.initial)
      ensures ctx.Abstract() == Completed(old(ctx.Abstract()), Content(hr, reply))
    {
      ctx.hr, ctx.replyMsg := hr, reply;
      ctx.log := ctx.log + [Content(hr, reply)];
      ctx.Complete();
    }

    method CompleteRpcError(st: AbslStatus)
      requires ctx.Valid()
      modifies ctx
      ensures ctx.Valid() && ctx.log == old(ctx.log) + [Content(S_OK, Some(ErrorMessage(st)))]
      ensures ctx.Abstract() == Completed(old(ctx.Abstract()), ContentOf(RpcError(0, st)))
    {
      var header := OrEmpty(SerializeReplyHeader(st));
      Complete(S_OK, Some(Message(Some(header), [""])));
    }
  }
}
