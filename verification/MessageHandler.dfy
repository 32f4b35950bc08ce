/** The transport's view of a v2 server: Begin posts a request, End returns its result. */
module MessageHandlers {
  import opened Options
  import opened Transports
  import opened Registries
  import opened ConnectionManagers
  import opened Completion

  class MessageHandler {
    const manager: ConnectionManager

    constructor (manager: ConnectionManager)
      ensures this.manager == manager
    {
      this.manager := manager;
    }

    static method NewRequest(clientId: ConnId, message: Message, indeterminate: int)
      returns (request: Completion.Request)
      ensures fresh(request) && fresh(request.ctx) && request.connId == clientId && request.msg == message
      ensures request.ctx.Valid() && request.ctx.log == [] && !request.ctx.isCompleted && request.ctx.fires == 0
    {
      var ctx := new Context(indeterminate);
      request := new Completion.Request(clientId, message, ctx);
    }

    /** A new request of that client goes to the queue its id names now, or straight to who waits there;
        its context, not completed yet and with whatever result the memory held, goes to the transport. */
    method BeginProcessRequest(clientId: ConnId, message: Message, indeterminate: int)
      returns (ctx: Context, ghost req: Request)
      requires manager.Valid() && clientId in manager.conns
      modifies manager.conns[clientId].queue, manager.conns[clientId].queue.PushTargets()
      ensures fresh(ctx) && ctx.Valid() && ctx.log == [] && !ctx.isCompleted && ctx.fires == 0
      ensures fresh(req) && req.connId == clientId && req.msg == message && req.ctx == ctx
      ensures manager.Valid() && manager.View() == old(manager.View()).Post(clientId, req).0
      ensures match old(manager.View()).Post(clientId, req).1
              case None => true
              case Some(w) => w.slot.value == Some(req) && w.event.signalled
    {
      var request := NewRequest(clientId, message, indeterminate);
      ctx, req := request.ctx, request;
      assert manager.View() == old(manager.View());
      manager.PostRequest(request);
    }

    /** After the callback: the asserted reply is there. */
    method EndProcessRequest(ctx: Context) returns (hr: int, reply: Option<Message>)
      requires ctx.Valid() && ctx.fires > 0 && forall c :: c in ctx.log ==> Allowed(c)
      ensures End(ctx.Abstract()) == Some(Content(hr, reply))
      ensures hr == ctx.log[|ctx.log| - 1].hr && (hr == S_OK ==> reply.Some? && reply == ctx.log[|ctx.log| - 1].reply)
    {
      if ctx.hr != S_OK {
        return ctx.hr, None;
      }
      assert Allowed(ctx.log[|ctx.log| - 1]);
      assert ctx.replyMsg.Some?;
      return S_OK, ctx.replyMsg;
    }
  }
}
